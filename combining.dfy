/**
 * Pooling up to two matchup records into one before it is weighted: the
 * `combineMatchupValues` helper of the bottom-lane picker and the inline
 * synergy combination of the support picker, plus the lookups and the
 * mirror (negated) records both engines feed into them.
 */
module Combining {
  import opened Wrappers
  import opened Weighting

  /** `values.reduce((sum, v) => sum + (v.games ?? 0), 0)`. */
  function TotalGames(vs: seq<MatchupValue>): int {
    if vs == [] then 0 else TotalGames(vs[..|vs| - 1]) + vs[|vs| - 1].games
  }

  /** `values.reduce((sum, v) => sum + v.delta * (v.games ?? 0), 0)`. */
  function WeightedSum(vs: seq<MatchupValue>): real {
    if vs == [] then 0.0 else WeightedSum(vs[..|vs| - 1]) + vs[|vs| - 1].delta * (vs[|vs| - 1].games as real)
  }

  /** `values.reduce((sum, v) => sum + v.delta, 0)`. */
  function DeltaSum(vs: seq<MatchupValue>): real {
    if vs == [] then 0.0 else DeltaSum(vs[..|vs| - 1]) + vs[|vs| - 1].delta
  }

  /**
   * `combineMatchupValues`: nothing for no records; the games-weighted mean
   * with the total as its games when the total is positive; otherwise the
   * plain mean with zero games.
   */
  function Combine(vs: seq<MatchupValue>): (r: Option<MatchupValue>)
    ensures r.None? <==> vs == []
    ensures r.Some? ==> r.value.games >= 0
    ensures r.Some? ==> r.value.games == (if TotalGames(vs) > 0 then TotalGames(vs) else 0)
  {
    if vs == [] then None
    else
      var total := TotalGames(vs);
      if total > 0 then Some(MatchupValue(WeightedSum(vs) / (total as real), total))
      else Some(MatchupValue(DeltaSum(vs) / (|vs| as real), 0))
  }

  /**
   * The support picker's inline combination: the same mean, but the games
   * reported are always the total, even when it is not positive.
   */
  function CombineKeepTotal(vs: seq<MatchupValue>): (r: Option<MatchupValue>)
    ensures r.None? <==> vs == []
    ensures r.Some? ==> r.value.games == TotalGames(vs)
  {
    if vs == [] then None
    else
      var total := TotalGames(vs);
      var delta := if total > 0 then WeightedSum(vs) / (total as real) else DeltaSum(vs) / (|vs| as real);
      Some(MatchupValue(delta, total))
  }

  /** `m[k]`, absent when the key is missing. */
  function Lookup(m: map<string, MatchupValue>, k: string): (r: Option<MatchupValue>)
    ensures r.Some? <==> k in m
    ensures r.Some? ==> r.value == m[k]
  {
    if k in m then Some(m[k]) else None
  }

  /** `[a, b].filter(Boolean)`: the records that are present, in order. */
  function Present(a: Option<MatchupValue>, b: Option<MatchupValue>): (vs: seq<MatchupValue>)
    ensures vs == [] <==> a.None? && b.None?
    ensures |vs| <= 2
    ensures forall v :: v in vs <==> a == Some(v) || b == Some(v)
  {
    (if a.Some? then [a.value] else []) + (if b.Some? then [b.value] else [])
  }

  /** `{ delta: -v.delta, games: v.games ?? 0 }`: the opponent's record read from our side. */
  function Mirror(v: Option<MatchupValue>): (r: Option<MatchupValue>)
    ensures r.Some? <==> v.Some?
    ensures r.Some? ==> r.value.delta == -v.value.delta && r.value.games == v.value.games
  {
    match v
    case None => None
    case Some(m) => Some(MatchupValue(-m.delta, m.games))
  }

  /** One line of a score breakdown: the delta, its margin of error and the games behind it. */
  datatype Term = Term(delta: real, confidence: Option<real>, games: int)

  /** `{ delta, confidence: confidenceMargin(v), games: v.games ?? 0 }`. */
  function Describe(v: MatchupValue, sqrt: SquareRoot): (t: Term)
    ensures t.delta == v.delta && t.games == v.games
    ensures t.confidence.None? <==> v.games <= 0
  {
    Term(v.delta, ConfidenceMargin(Some(v), sqrt), v.games)
  }

  // ---------------------------------------------------------------------------
  // Properties of the combination
  // ---------------------------------------------------------------------------

  /**
   * The pooled delta is the games-weighted mean when the total is positive
   * (delta times total games is the weighted sum) and the plain mean otherwise.
   */
  lemma CombineMean(vs: seq<MatchupValue>)
    requires vs != []
    ensures TotalGames(vs) > 0 ==> Combine(vs).value.delta * (TotalGames(vs) as real) == WeightedSum(vs)
    ensures TotalGames(vs) <= 0 ==> Combine(vs).value.delta * (|vs| as real) == DeltaSum(vs)
  {
  }

  /** Game counts that are never negative add up to a count. */
  lemma {:induction false} TotalGamesNonNegative(vs: seq<MatchupValue>)
    requires forall i :: 0 <= i < |vs| ==> vs[i].games >= 0
    ensures TotalGames(vs) >= 0
  {
    if vs != [] {
      TotalGamesNonNegative(vs[..|vs| - 1]);
    }
  }

  /** The games-weighted sum of deltas in [lo, hi] lies between lo and hi times the total. */
  lemma {:induction false} WeightedSumBounds(vs: seq<MatchupValue>, lo: real, hi: real)
    requires forall i :: 0 <= i < |vs| ==> lo <= vs[i].delta <= hi && vs[i].games >= 0
    ensures lo * (TotalGames(vs) as real) <= WeightedSum(vs) <= hi * (TotalGames(vs) as real)
  {
    if vs != [] {
      var init := vs[..|vs| - 1];
      var last := vs[|vs| - 1];
      WeightedSumBounds(init, lo, hi);
      var g := last.games as real;
      ScaledBounds(lo, last.delta, hi, g);
      AddBounds(lo, hi, TotalGames(init) as real, g, WeightedSum(init), last.delta * g);
      assert (TotalGames(vs) as real) == (TotalGames(init) as real) + g;
    }
  }

  /** The plain sum of n deltas in [lo, hi] lies between n times lo and n times hi. */
  lemma {:induction false} DeltaSumBounds(vs: seq<MatchupValue>, lo: real, hi: real)
    requires forall i :: 0 <= i < |vs| ==> lo <= vs[i].delta <= hi
    ensures lo * (|vs| as real) <= DeltaSum(vs) <= hi * (|vs| as real)
  {
    if vs != [] {
      var init := vs[..|vs| - 1];
      DeltaSumBounds(init, lo, hi);
      AddBounds(lo, hi, |init| as real, 1.0, DeltaSum(init), vs[|vs| - 1].delta);
      assert (|vs| as real) == (|init| as real) + 1.0;
    }
  }

  lemma AddBounds(lo: real, hi: real, n: real, g: real, s: real, x: real)
    requires lo * n <= s <= hi * n
    requires lo * g <= x <= hi * g
    ensures lo * (n + g) <= s + x <= hi * (n + g)
  {
    assert lo * (n + g) == lo * n + lo * g;
    assert hi * (n + g) == hi * n + hi * g;
  }

  lemma ScaledBounds(lo: real, d: real, hi: real, g: real)
    requires lo <= d <= hi && g >= 0.0
    ensures lo * g <= d * g <= hi * g
  {
    assert (d - lo) * g >= 0.0;
    assert (hi - d) * g >= 0.0;
  }

  lemma QuotientBounds(lo: real, s: real, hi: real, n: real)
    requires n > 0.0 && lo * n <= s <= hi * n
    ensures lo <= s / n <= hi
  {
    assert s / n - lo == (s - lo * n) / n;
    assert hi - s / n == (hi * n - s) / n;
  }

  /**
   * The pooled delta of records with non-negative games lies between the
   * smallest and the largest delta pooled, whichever mean is taken.
   */
  lemma CombineWithinRange(vs: seq<MatchupValue>, lo: real, hi: real)
    requires vs != []
    requires forall i :: 0 <= i < |vs| ==> lo <= vs[i].delta <= hi && vs[i].games >= 0
    ensures lo <= Combine(vs).value.delta <= hi
    ensures lo <= CombineKeepTotal(vs).value.delta <= hi
  {
    TotalGamesNonNegative(vs);
    var total := TotalGames(vs);
    var delta := if total > 0 then WeightedSum(vs) / (total as real) else DeltaSum(vs) / (|vs| as real);
    assert Combine(vs).value.delta == delta && CombineKeepTotal(vs).value.delta == delta;
    if total > 0 {
      WeightedSumBounds(vs, lo, hi);
      QuotientBounds(lo, WeightedSum(vs), hi, total as real);
    } else {
      DeltaSumBounds(vs, lo, hi);
      QuotientBounds(lo, DeltaSum(vs), hi, |vs| as real);
    }
  }

  /** Records that agree on the delta pool to that delta. */
  lemma CombineAgreeing(vs: seq<MatchupValue>, d: real)
    requires vs != []
    requires forall i :: 0 <= i < |vs| ==> vs[i].delta == d && vs[i].games >= 0
    ensures Combine(vs).value.delta == d
  {
    CombineWithinRange(vs, d, d);
  }

  /** Pooling a single record keeps it, except that games below one become zero. */
  lemma CombineSingle(v: MatchupValue)
    ensures Combine([v]) == Some(MatchupValue(v.delta, if v.games > 0 then v.games else 0))
    ensures CombineKeepTotal([v]) == Some(v)
  {
    SumsSnoc([], v);
    assert [] + [v] == [v];
    if v.games > 0 {
      assert (v.delta * (v.games as real)) / (v.games as real) == v.delta;
    }
  }

  /** A pooled single record weighs exactly what the record weighs. */
  lemma CombineSingleWeight(v: MatchupValue, conf: ConfidenceCurve)
    ensures WeightedDelta(Combine([v]), conf) == WeightedDelta(Some(v), conf)
  {
    CombineSingle(v);
  }

  /** The games-weighted mean of two records, written out. */
  lemma CombinePair(a: MatchupValue, b: MatchupValue)
    ensures a.games + b.games > 0 ==>
              Combine([a, b]) == Some(MatchupValue((a.delta * (a.games as real) + b.delta * (b.games as real)) / ((a.games + b.games) as real), a.games + b.games))
    ensures a.games + b.games <= 0 ==>
              Combine([a, b]) == Some(MatchupValue((a.delta + b.delta) / 2.0, 0))
  {
    PairSums(a, b);
  }

  /** The pooled value does not depend on which of two records comes first. */
  lemma CombineSwap(a: MatchupValue, b: MatchupValue)
    ensures Combine([a, b]) == Combine([b, a])
    ensures CombineKeepTotal([a, b]) == CombineKeepTotal([b, a])
  {
    PairSums(a, b);
    PairSums(b, a);
  }

  lemma PairSums(a: MatchupValue, b: MatchupValue)
    ensures TotalGames([a, b]) == a.games + b.games
    ensures WeightedSum([a, b]) == a.delta * (a.games as real) + b.delta * (b.games as real)
    ensures DeltaSum([a, b]) == a.delta + b.delta
  {
    SumsSnoc([], a);
    assert [] + [a] == [a];
    SumsSnoc([a], b);
    assert [a] + [b] == [a, b];
  }

  /** The three sums after one more record. */
  lemma SumsSnoc(vs: seq<MatchupValue>, v: MatchupValue)
    ensures TotalGames(vs + [v]) == TotalGames(vs) + v.games
    ensures WeightedSum(vs + [v]) == WeightedSum(vs) + v.delta * (v.games as real)
    ensures DeltaSum(vs + [v]) == DeltaSum(vs) + v.delta
  {
    assert (vs + [v])[..|vs + [v]| - 1] == vs;
  }

  /**
   * The two combinations differ only in the games they report when the total
   * is not positive, so they weigh the same and show the same margin.
   */
  lemma KeepTotalAgrees(vs: seq<MatchupValue>, conf: ConfidenceCurve, sqrt: SquareRoot)
    ensures CombineKeepTotal(vs).None? <==> Combine(vs).None?
    ensures vs != [] ==> CombineKeepTotal(vs).value.delta == Combine(vs).value.delta
    ensures WeightedDelta(CombineKeepTotal(vs), conf) == WeightedDelta(Combine(vs), conf)
    ensures ConfidenceMargin(CombineKeepTotal(vs), sqrt) == ConfidenceMargin(Combine(vs), sqrt)
  {
  }

  /** Reading a record from the other side twice gives it back. */
  lemma MirrorInvolutive(v: Option<MatchupValue>)
    ensures Mirror(Mirror(v)) == v
  {
  }
}
