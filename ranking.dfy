/**
 * The stage both pickers share after raw scoring: min-max normalisation over
 * the candidates that have data, the neutral 50 cases, `Math.round`, removal
 * of the candidate the ally selection names, and the descending sort.
 */
module Ranking {
  import opened Wrappers
  import opened Champions
  import opened Sorting

  /** A candidate with its raw score, whether any data backed it, and its breakdown. */
  datatype RawScore<B> = RawScore(champ: Champion, raw: real, hasData: bool, breakdown: B)

  /** `{ ...champ, score, breakdown }`: a candidate with its displayed score. */
  datatype Scored<B> = Scored(champ: Champion, score: int, breakdown: B)

  ghost predicate SomeData<B>(rs: seq<RawScore<B>>) {
    exists i :: 0 <= i < |rs| && rs[i].hasData
  }

  /** `Math.min(...scoresWithData)`, absent when no candidate has data. */
  function DataMin<B>(rs: seq<RawScore<B>>): (m: Option<real>)
    ensures m.None? <==> !SomeData(rs)
    ensures m.Some? ==> forall i :: 0 <= i < |rs| && rs[i].hasData ==> m.value <= rs[i].raw
    ensures m.Some? ==> exists i :: 0 <= i < |rs| && rs[i].hasData && rs[i].raw == m.value
  {
    if rs == [] then None
    else
      var m := DataMin(rs[..|rs| - 1]);
      var last := rs[|rs| - 1];
      assert forall i :: 0 <= i < |rs| - 1 ==> rs[..|rs| - 1][i] == rs[i];
      if !last.hasData then m
      else if m.None? || last.raw < m.value then Some(last.raw)
      else m
  }

  /** `Math.max(...scoresWithData)`, absent when no candidate has data. */
  function DataMax<B>(rs: seq<RawScore<B>>): (m: Option<real>)
    ensures m.None? <==> !SomeData(rs)
    ensures m.Some? ==> forall i :: 0 <= i < |rs| && rs[i].hasData ==> rs[i].raw <= m.value
    ensures m.Some? ==> exists i :: 0 <= i < |rs| && rs[i].hasData && rs[i].raw == m.value
  {
    if rs == [] then None
    else
      var m := DataMax(rs[..|rs| - 1]);
      var last := rs[|rs| - 1];
      assert forall i :: 0 <= i < |rs| - 1 ==> rs[..|rs| - 1][i] == rs[i];
      if !last.hasData then m
      else if m.None? || last.raw > m.value then Some(last.raw)
      else m
  }

  /**
   * The normalised score: 50 when every filter is blind, when the candidate
   * has no data, or when all candidates with data tie; otherwise the raw
   * score mapped linearly from [lo, hi] onto [20, 100].
   */
  function Normalized(raw: real, hasData: bool, allBlind: bool, lo: real, hi: real): (s: real)
    ensures allBlind || !hasData || hi == lo ==> s == 50.0
    ensures !allBlind && hasData && lo <= raw <= hi && lo != hi ==> 20.0 <= s <= 100.0
    ensures !allBlind && hasData && lo != hi && raw == lo ==> s == 20.0
    ensures !allBlind && hasData && lo != hi && raw == hi ==> s == 100.0
  {
    if allBlind then 50.0
    else if !hasData then 50.0
    else if hi == lo then 50.0
    else
      var f := (raw - lo) / (hi - lo);
      assert lo <= raw <= hi ==> 0.0 <= f <= 1.0 by {
        if lo <= raw <= hi {
          FractionBounds(raw - lo, hi - lo);
        }
      }
      assert raw == hi ==> f == 1.0 by {
        if raw == hi {
          DivideBySelf(hi - lo);
        }
      }
      20.0 + f * 80.0
  }

  lemma FractionBounds(a: real, b: real)
    requires 0.0 <= a <= b && 0.0 < b
    ensures 0.0 <= a / b <= 1.0
  {
    var q := a / b;
    assert q * b == a;
    assert (1.0 - q) * b == b - a;
  }

  lemma DivideBySelf(x: real)
    requires x != 0.0
    ensures x / x == 1.0
  {
  }

  /** Normalisation keeps the order of raw scores among candidates with data. */
  lemma NormalizedMonotone(r1: real, r2: real, allBlind: bool, lo: real, hi: real)
    requires r1 <= r2 && lo <= hi
    ensures Normalized(r1, true, allBlind, lo, hi) <= Normalized(r2, true, allBlind, lo, hi)
  {
    if !allBlind && lo != hi {
      DivideMonotone(r1 - lo, r2 - lo, hi - lo);
    }
  }

  lemma DivideMonotone(a: real, b: real, d: real)
    requires a <= b && 0.0 < d
    ensures a / d <= b / d
  {
    var p, q := a / d, b / d;
    assert p * d == a && q * d == b;
    assert (q - p) * d == b - a;
  }

  /** `Math.round`: the nearest integer, halves rounded up. */
  function Round(x: real): (n: int)
    ensures n as real <= x + 0.5 < n as real + 1.0
  {
    (x + 0.5).Floor
  }

  lemma RoundMonotone(x: real, y: real)
    requires x <= y
    ensures Round(x) <= Round(y)
  {
  }

  /** Rounding an integer gives it back, so a score of exactly 50 stays 50. */
  lemma RoundInteger(k: int)
    ensures Round(k as real) == k
  {
  }

  /** Rounding keeps a value in [20, 100] there. */
  lemma RoundBounds(x: real)
    requires 20.0 <= x <= 100.0
    ensures 20 <= Round(x) <= 100
  {
    RoundMonotone(20.0, x);
    RoundMonotone(x, 100.0);
    RoundInteger(20);
    RoundInteger(100);
  }

  /** The normalisation with the bounds the candidate list gives it. */
  function ScoreOf<B>(r: RawScore<B>, allBlind: bool, lo: Option<real>, hi: Option<real>): Scored<B> {
    Scored(r.champ, Round(Normalized(r.raw, r.hasData, allBlind, lo.GetOr(0.0), hi.GetOr(0.0))), r.breakdown)
  }

  /** `rawScores.map(...)`: every candidate with its rounded normalised score. */
  function Scale<B>(rs: seq<RawScore<B>>, allBlind: bool): (out: seq<Scored<B>>)
    ensures |out| == |rs|
  {
    var lo := DataMin(rs);
    var hi := DataMax(rs);
    seq(|rs|, i requires 0 <= i < |rs| => ScoreOf(rs[i], allBlind, lo, hi))
  }

  /** `.filter(c => c.id !== excluded)`. */
  function Exclude<B>(xs: seq<Scored<B>>, excluded: Option<string>): (ys: seq<Scored<B>>)
    ensures forall i :: 0 <= i < |ys| ==> ys[i] in xs && excluded != Some(ys[i].champ.id)
    ensures forall i :: 0 <= i < |xs| && excluded != Some(xs[i].champ.id) ==> xs[i] in ys
  {
    if xs == [] then []
    else (if excluded == Some(xs[0].champ.id) then [] else [xs[0]]) + Exclude(xs[1..], excluded)
  }

  function ScoreKey<B>(x: Scored<B>): int {
    x.score
  }

  /** The whole stage: normalise, drop the excluded candidate, sort by descending score. */
  function Rank<B>(rs: seq<RawScore<B>>, allBlind: bool, excluded: Option<string>): seq<Scored<B>> {
    SortDesc(Exclude(Scale(rs, allBlind), excluded), ScoreKey)
  }

  // ---------------------------------------------------------------------------
  // Properties of the normalised scores
  // ---------------------------------------------------------------------------

  /** Every displayed score lies in [20, 100]. */
  lemma ScaleBounds<B>(rs: seq<RawScore<B>>, allBlind: bool, i: nat)
    requires i < |rs|
    ensures 20 <= Scale(rs, allBlind)[i].score <= 100
  {
    var lo := DataMin(rs);
    var hi := DataMax(rs);
    var s := Normalized(rs[i].raw, rs[i].hasData, allBlind, lo.GetOr(0.0), hi.GetOr(0.0));
    if allBlind || !rs[i].hasData || lo.GetOr(0.0) == hi.GetOr(0.0) {
      RoundInteger(50);
    } else {
      RoundBounds(s);
    }
  }

  /** The three neutral cases give exactly 50. */
  lemma ScaleNeutral<B>(rs: seq<RawScore<B>>, allBlind: bool, i: nat)
    requires i < |rs|
    requires allBlind || !rs[i].hasData || DataMin(rs) == DataMax(rs)
    ensures Scale(rs, allBlind)[i].score == 50
  {
    RoundInteger(50);
  }

  /** Among candidates with data, a higher raw score never gets a lower displayed score. */
  lemma ScaleMonotone<B>(rs: seq<RawScore<B>>, allBlind: bool, i: nat, j: nat)
    requires i < |rs| && j < |rs|
    requires rs[i].hasData && rs[j].hasData && rs[i].raw <= rs[j].raw
    ensures Scale(rs, allBlind)[i].score <= Scale(rs, allBlind)[j].score
  {
    var lo := DataMin(rs).value;
    var hi := DataMax(rs).value;
    NormalizedMonotone(rs[i].raw, rs[j].raw, allBlind, lo, hi);
    RoundMonotone(Normalized(rs[i].raw, true, allBlind, lo, hi), Normalized(rs[j].raw, true, allBlind, lo, hi));
  }

  /** When the candidates with data do not tie, the lowest shows 20 and the highest 100. */
  lemma ScaleExtremes<B>(rs: seq<RawScore<B>>, allBlind: bool, i: nat, j: nat)
    requires i < |rs| && j < |rs| && !allBlind
    requires rs[i].hasData && rs[j].hasData && rs[i].raw < rs[j].raw
    ensures exists k :: 0 <= k < |rs| && rs[k].hasData && Scale(rs, allBlind)[k].score == 20
    ensures exists k :: 0 <= k < |rs| && rs[k].hasData && Scale(rs, allBlind)[k].score == 100
  {
    var lo := DataMin(rs).value;
    var hi := DataMax(rs).value;
    var kLo :| 0 <= kLo < |rs| && rs[kLo].hasData && rs[kLo].raw == lo;
    var kHi :| 0 <= kHi < |rs| && rs[kHi].hasData && rs[kHi].raw == hi;
    RoundInteger(20);
    RoundInteger(100);
    assert Scale(rs, allBlind)[kLo].score == 20;
    assert Scale(rs, allBlind)[kHi].score == 100;
  }

  /** Scaling keeps each candidate and its breakdown in place. */
  lemma ScaleKeepsCandidates<B>(rs: seq<RawScore<B>>, allBlind: bool, i: nat)
    requires i < |rs|
    ensures Scale(rs, allBlind)[i].champ == rs[i].champ
    ensures Scale(rs, allBlind)[i].breakdown == rs[i].breakdown
  {
  }

  // ---------------------------------------------------------------------------
  // Properties of the ranked list
  // ---------------------------------------------------------------------------

  /** The filter keeps exactly the candidates that are not excluded. */
  lemma {:induction false} ExcludeMembers<B>(xs: seq<Scored<B>>, excluded: Option<string>)
    ensures forall x :: x in Exclude(xs, excluded) ==> x in xs && excluded != Some(x.champ.id)
    ensures forall x :: x in xs && excluded != Some(x.champ.id) ==> x in Exclude(xs, excluded)
  {
    if xs != [] {
      ExcludeMembers(xs[1..], excluded);
      assert xs == [xs[0]] + xs[1..];
    }
  }

  /** The ranked list is ordered by non-increasing score. */
  lemma RankSorted<B>(rs: seq<RawScore<B>>, allBlind: bool, excluded: Option<string>)
    ensures SortedDesc(Rank(rs, allBlind, excluded), ScoreKey)
  {
    SortDescSorted(Exclude(Scale(rs, allBlind), excluded), ScoreKey);
  }

  /**
   * The ranked list is a permutation of the scaled, filtered candidates that
   * keeps their original order among equal scores.
   */
  lemma RankStablePermutation<B>(rs: seq<RawScore<B>>, allBlind: bool, excluded: Option<string>)
    ensures multiset(Rank(rs, allBlind, excluded)) == multiset(Exclude(Scale(rs, allBlind), excluded))
    ensures forall k :: WithKey(Rank(rs, allBlind, excluded), ScoreKey, k) == WithKey(Exclude(Scale(rs, allBlind), excluded), ScoreKey, k)
  {
    var kept := Exclude(Scale(rs, allBlind), excluded);
    SortDescPermutes(kept, ScoreKey);
    forall k
      ensures WithKey(Rank(rs, allBlind, excluded), ScoreKey, k) == WithKey(kept, ScoreKey, k)
    {
      SortDescStable(kept, ScoreKey, k);
    }
  }

  /** A candidate is ranked exactly when it is scaled and not the excluded one. */
  lemma RankMembers<B>(rs: seq<RawScore<B>>, allBlind: bool, excluded: Option<string>)
    ensures forall x :: x in Rank(rs, allBlind, excluded) ==> x in Scale(rs, allBlind) && excluded != Some(x.champ.id)
    ensures forall x :: x in Scale(rs, allBlind) && excluded != Some(x.champ.id) ==> x in Rank(rs, allBlind, excluded)
  {
    SortDescMembers(Exclude(Scale(rs, allBlind), excluded), ScoreKey);
    ExcludeMembers(Scale(rs, allBlind), excluded);
  }

  /** Every ranked score lies in [20, 100]. */
  lemma RankBounds<B>(rs: seq<RawScore<B>>, allBlind: bool, excluded: Option<string>)
    ensures forall x :: x in Rank(rs, allBlind, excluded) ==> 20 <= x.score <= 100
  {
    RankMembers(rs, allBlind, excluded);
    forall x | x in Rank(rs, allBlind, excluded)
      ensures 20 <= x.score <= 100
    {
      var scaled := Scale(rs, allBlind);
      assert x in scaled;
      var i :| 0 <= i < |scaled| && scaled[i] == x;
      ScaleBounds(rs, allBlind, i);
    }
  }

  /** With every filter blind, every remaining candidate shows 50. */
  lemma RankBlind<B>(rs: seq<RawScore<B>>, excluded: Option<string>)
    ensures forall x :: x in Rank(rs, true, excluded) ==> x.score == 50
  {
    RankMembers(rs, true, excluded);
    forall x | x in Rank(rs, true, excluded)
      ensures x.score == 50
    {
      var scaled := Scale(rs, true);
      assert x in scaled;
      var i :| 0 <= i < |scaled| && scaled[i] == x;
      ScaleNeutral(rs, true, i);
    }
  }
}
