/**
 * Sample-size discounting of a win-rate delta (`weightedDelta`) and the 95%
 * margin of error shown beside it (`confidenceMargin`).
 *
 * The exponential and the square root are not modelled: the confidence curve
 * `1 - exp(-games / 1000)` and the square root are parameters, constrained only
 * by the properties the arguments below need.
 */
module Weighting {
  import opened Wrappers

  /** One observed effect: a delta in percentage points and its sample size. */
  datatype MatchupValue = MatchupValue(delta: real, games: int)

  /** The laws of `1 - exp(-g / 1000)` on non-negative game counts that the model relies on. */
  ghost predicate ConfidenceLaws(f: nat -> real) {
    && f(0) == 0.0
    && (forall g :: 0.0 <= f(g) < 1.0)
    && (forall g, h :: g <= h ==> f(g) <= f(h))
  }

  /** A confidence curve: zero with no games, below one, non-decreasing. */
  type ConfidenceCurve = f: nat -> real | ConfidenceLaws(f) witness (g: nat) => 0.0

  /** A square root: non-negative on non-negative arguments. */
  type SquareRoot = f: real -> real | forall x :: 0.0 <= x ==> 0.0 <= f(x) witness (x: real) => if x < 0.0 then 0.0 else x

  /** The two curves the engines weigh and annotate deltas with. */
  datatype Curves = Curves(conf: ConfidenceCurve, sqrt: SquareRoot)

  /** `Math.max(0, value.games || 0)`. */
  function ClampGames(games: int): (g: nat)
    ensures games <= 0 ==> g == 0
    ensures games > 0 ==> g == games
  {
    if games < 0 then 0 else games
  }

  /** The confidence the curve gives to a raw game count. */
  function Confidence(games: int, conf: ConfidenceCurve): (c: real)
    ensures 0.0 <= c < 1.0
    ensures games <= 0 ==> c == 0.0
  {
    conf(ClampGames(games))
  }

  /** `weightedDelta`: the delta scaled by the confidence of its sample size; 0 when absent. */
  function WeightedDelta(v: Option<MatchupValue>, conf: ConfidenceCurve): (r: real)
    ensures v.None? ==> r == 0.0
    ensures v.Some? && v.value.games <= 0 ==> r == 0.0
    ensures v.Some? && v.value.delta >= 0.0 ==> 0.0 <= r <= v.value.delta
    ensures v.Some? && v.value.delta <= 0.0 ==> v.value.delta <= r <= 0.0
    ensures v.Some? && v.value.delta != 0.0 ==> r != v.value.delta
  {
    if v.None? then 0.0 else Discount(v.value.delta, Confidence(v.value.games, conf))
  }

  /** A delta scaled by a factor in [0, 1) moves toward 0 and never reaches a non-zero delta. */
  function Discount(d: real, c: real): (r: real)
    requires 0.0 <= c < 1.0
    ensures d >= 0.0 ==> 0.0 <= r <= d
    ensures d <= 0.0 ==> d <= r <= 0.0
    ensures d != 0.0 ==> r != d
    ensures c == 0.0 ==> r == 0.0
  {
    ShrinkTowardZero(d, c);
    d * c
  }

  lemma ShrinkTowardZero(d: real, c: real)
    requires 0.0 <= c < 1.0
    ensures d >= 0.0 ==> 0.0 <= d * c <= d
    ensures d <= 0.0 ==> d <= d * c <= 0.0
    ensures d != 0.0 ==> d * c != d
  {
    if d > 0.0 {
      assert d * c < d * 1.0;
    } else if d < 0.0 {
      assert d * c > d * 1.0;
    }
  }

  /** Discounting keeps the order of deltas. */
  lemma DiscountMonotoneInDelta(d1: real, d2: real, c: real)
    requires d1 <= d2
    requires 0.0 <= c < 1.0
    ensures Discount(d1, c) <= Discount(d2, c)
  {
    assert d2 * c - d1 * c == (d2 - d1) * c;
    assert (d2 - d1) * c >= 0.0;
  }

  /** A factor closer to one discounts less. */
  lemma DiscountMonotone(d: real, c1: real, c2: real)
    requires 0.0 <= c1 <= c2 < 1.0
    ensures d >= 0.0 ==> Discount(d, c1) <= Discount(d, c2)
    ensures d <= 0.0 ==> Discount(d, c1) >= Discount(d, c2)
  {
    if d > 0.0 {
      assert d * c1 <= d * c2;
    } else if d < 0.0 {
      assert d * c1 >= d * c2;
    }
  }

  /** More games never shrink the weight of a delta. */
  lemma WeightedDeltaMonotoneInGames(delta: real, g1: int, g2: int, conf: ConfidenceCurve)
    requires g1 <= g2
    ensures delta >= 0.0 ==> WeightedDelta(Some(MatchupValue(delta, g1)), conf) <= WeightedDelta(Some(MatchupValue(delta, g2)), conf)
    ensures delta <= 0.0 ==> WeightedDelta(Some(MatchupValue(delta, g1)), conf) >= WeightedDelta(Some(MatchupValue(delta, g2)), conf)
  {
    var c1 := Confidence(g1, conf);
    var c2 := Confidence(g2, conf);
    assert c1 <= c2 by {
      assert ClampGames(g1) <= ClampGames(g2);
    }
    DiscountMonotone(delta, c1, c2);
  }

  /** A larger delta at the same sample size never weighs less. */
  lemma WeightedDeltaMonotoneInDelta(d1: real, d2: real, games: int, conf: ConfidenceCurve)
    requires d1 <= d2
    ensures WeightedDelta(Some(MatchupValue(d1, games)), conf) <= WeightedDelta(Some(MatchupValue(d2, games)), conf)
  {
    DiscountMonotoneInDelta(d1, d2, Confidence(games, conf));
  }

  /** Negating the delta negates its weighted delta (the mirror records used by the engines). */
  lemma WeightedDeltaNegate(v: MatchupValue, conf: ConfidenceCurve)
    ensures WeightedDelta(Some(MatchupValue(-v.delta, v.games)), conf) == -WeightedDelta(Some(v), conf)
  {
  }

  /** `Math.min(1, Math.max(0, 0.5 + delta / 100))`: the win rate the delta implies, clamped to [0, 1]. */
  function WinRate(delta: real): (w: real)
    ensures 0.0 <= w <= 1.0
    ensures 0.0 <= 0.5 + delta / 100.0 <= 1.0 ==> w == 0.5 + delta / 100.0
  {
    var w := 0.5 + delta / 100.0;
    if w < 0.0 then 0.0 else if w > 1.0 then 1.0 else w
  }

  /**
   * `confidenceMargin`: absent exactly when the value is absent or has no
   * (clamped) games; otherwise 1.96 standard errors of a binomial proportion at
   * the implied win rate, in percentage points, which is never negative.
   */
  function ConfidenceMargin(v: Option<MatchupValue>, sqrt: SquareRoot): (r: Option<real>)
    ensures r.None? <==> v.None? || v.value.games <= 0
    ensures r.Some? ==> r.value >= 0.0
  {
    match v
    case None => None
    case Some(m) =>
      var games := ClampGames(m.games);
      if games == 0 then None
      else
        var w := WinRate(m.delta);
        var variance := (w * (1.0 - w)) / (games as real);
        assert variance >= 0.0 by {
          assert w * (1.0 - w) >= 0.0;
        }
        var standardError := sqrt(variance);
        assert 1.96 * standardError * 100.0 >= 0.0;
        Some(1.96 * standardError * 100.0)
  }
}
