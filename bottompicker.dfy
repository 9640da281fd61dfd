/**
 * The bottom-lane picker's scoring engine (`scoredChampions`): every bottom
 * laner is scored against the four filters, normalised, the ally support's id
 * is filtered out and the list is sorted by score.
 *
 * The per-candidate body is written twice: `Score` states what it computes
 * and `ScoreCandidate` performs the same steps on local variables, as the
 * source does, and is proved to agree with it.
 */
module BottomPicker {
  import opened Wrappers
  import opened Champions
  import opened Weighting
  import opened Combining
  import opened Repository
  import opened Ranking

  /** The four filters: ally support, enemy support, enemy bottom laner, threat. */
  datatype Selection = Selection(
    allySupport: Option<string>,
    enemySupport: Option<string>,
    enemyAdc: Option<string>,
    threat: Option<Threat>)

  /** The display names the selected ids resolve to. */
  datatype Names = Names(allySupport: Option<string>, enemySupport: Option<string>, enemyBottom: Option<string>)

  /** The `breakdown` shown with a candidate. */
  datatype Breakdown = Breakdown(
    synergy: Option<Term>,
    allySupportMissing: bool,
    vsEnemySupport: Option<Term>,
    vsEnemyBottom: Option<Term>,
    enemyBottomMissing: bool,
    threatBonus: Option<real>,
    names: Names,
    threatType: Option<Threat>)

  /** Supports are looked up among `supports`, the enemy bottom laner among `botLaners`. */
  function ResolveNames(sel: Selection, roster: Roster): Names {
    Names(
      ResolveName(sel.allySupport, roster.supports),
      ResolveName(sel.enemySupport, roster.supports),
      ResolveName(sel.enemyAdc, roster.botLaners))
  }

  /** No filter is set. */
  predicate Blind(sel: Selection) {
    !Truthy(sel.allySupport) && !Truthy(sel.enemySupport) && !Truthy(sel.enemyAdc) && sel.threat.None?
  }

  /** The candidate's own synergy with the ally support, then the support's synergy with it. */
  function SynergyValues(t: Tables, ally: string, champ: Champion): seq<MatchupValue> {
    Present(
      if champ.name in t.bottom then Lookup(t.bottom[champ.name].synergy, ally) else None,
      if ally in t.support then Lookup(t.support[ally].synergyBottom, champ.name) else None)
  }

  /** The candidate's record against the enemy support, then the support's record against it, negated. */
  function EnemySupportValues(t: Tables, enemy: string, champ: Champion): seq<MatchupValue>
    requires champ.name in t.bottom
  {
    Present(
      Lookup(t.bottom[champ.name].counters, enemy),
      Mirror(if enemy in t.support then Lookup(t.support[enemy].vsBottom, champ.name) else None))
  }

  /** The candidate's record against the enemy bottom laner, then that laner's record against it, negated. */
  function EnemyBottomValues(t: Tables, enemy: string, champ: Champion): seq<MatchupValue>
    requires champ.name in t.bottom
  {
    Present(
      Lookup(t.bottom[champ.name].enemyBottom, enemy),
      Mirror(if enemy in t.bottom then Lookup(t.bottom[enemy].enemyBottom, champ.name) else None))
  }

  /** The pooled synergy value, when the synergy term is evaluated and finds a record. */
  function SynergyPooled(t: Tables, sel: Selection, n: Names, champ: Champion): Option<MatchupValue> {
    if Truthy(sel.allySupport) && Truthy(n.allySupport) then Combine(SynergyValues(t, n.allySupport.value, champ)) else None
  }

  /** The pooled value against the enemy support; the term needs the candidate's own entry. */
  function EnemySupportPooled(t: Tables, sel: Selection, n: Names, champ: Champion): Option<MatchupValue> {
    if Truthy(sel.enemySupport) && champ.name in t.bottom && Truthy(n.enemySupport)
    then Combine(EnemySupportValues(t, n.enemySupport.value, champ)) else None
  }

  /** The pooled value against the enemy bottom laner; the term needs the candidate's own entry. */
  function EnemyBottomPooled(t: Tables, sel: Selection, n: Names, champ: Champion): Option<MatchupValue> {
    if Truthy(sel.enemyAdc) && Truthy(n.enemyBottom) && champ.name in t.bottom
    then Combine(EnemyBottomValues(t, n.enemyBottom.value, champ)) else None
  }

  /** `selectedEnemyThreat && champ.counters.includes(selectedEnemyThreat)`. */
  predicate CountersThreat(sel: Selection, champ: Champion) {
    sel.threat.Some? && sel.threat.value in champ.counters
  }

  function Annotate(v: Option<MatchupValue>, sqrt: SquareRoot): Option<Term> {
    if v.Some? then Some(Describe(v.value, sqrt)) else None
  }

  /**
   * The raw score of one candidate: twice the weighted synergy, half the
   * weighted record against the enemy support, a fifth of the weighted record
   * against the enemy bottom laner, and 2 for countering the threat.
   * `hasData` records an entry in `MATCHUP_DATA` or the threat bonus.
   */
  function Score(t: Tables, c: Curves, sel: Selection, n: Names, champ: Champion): RawScore<Breakdown> {
    var synergy := SynergyPooled(t, sel, n, champ);
    var enemySupport := EnemySupportPooled(t, sel, n, champ);
    var enemyBottom := EnemyBottomPooled(t, sel, n, champ);
    var threat := CountersThreat(sel, champ);
    RawScore(
      champ,
      2.0 * WeightedDelta(synergy, c.conf) + 0.5 * WeightedDelta(enemySupport, c.conf)
        + 0.2 * WeightedDelta(enemyBottom, c.conf) + (if threat then 2.0 else 0.0),
      champ.name in t.bottom || threat,
      Breakdown(
        Annotate(synergy, c.sqrt),
        Truthy(sel.allySupport) && Truthy(n.allySupport) && synergy.None?,
        Annotate(enemySupport, c.sqrt),
        Annotate(enemyBottom, c.sqrt),
        Truthy(sel.enemyAdc) && Truthy(n.enemyBottom) && champ.name in t.bottom && enemyBottom.None?,
        if threat then Some(2.0) else None,
        n,
        sel.threat))
  }

  /** The per-candidate body of `adcs.map(champ => ...)`, step by step. */
  method ScoreCandidate(t: Tables, c: Curves, sel: Selection, n: Names, champ: Champion) returns (r: RawScore<Breakdown>)
    ensures r == Score(t, c, sel, n, champ)
  {
    var score := 0.0;
    var hasData := champ.name in t.bottom;

    var synergyInfo, allySupportMissing;
    score, synergyInfo, allySupportMissing := AddSynergy(t, c, sel, n, champ, score);
    var vsEnemySupportInfo;
    score, vsEnemySupportInfo := AddEnemySupport(t, c, sel, n, champ, score);
    var vsEnemyBottomInfo, enemyBottomMissing;
    score, vsEnemyBottomInfo, enemyBottomMissing := AddEnemyBottom(t, c, sel, n, champ, score);

    var threatBonus;
    score, hasData, threatBonus := AddThreat(sel, champ, score, hasData);

    r := RawScore(champ, score, hasData,
      Breakdown(synergyInfo, allySupportMissing, vsEnemySupportInfo, vsEnemyBottomInfo,
                enemyBottomMissing, threatBonus, n, sel.threat));
  }

  /** The threat block: 2 for a candidate that counters the selected threat. */
  method AddThreat(sel: Selection, champ: Champion, score0: real, hasData0: bool)
    returns (score: real, hasData: bool, threatBonus: Option<real>)
    ensures score == score0 + (if CountersThreat(sel, champ) then 2.0 else 0.0)
    ensures hasData == (hasData0 || CountersThreat(sel, champ))
    ensures threatBonus == (if CountersThreat(sel, champ) then Some(2.0) else None)
  {
    score, hasData, threatBonus := score0, hasData0, None;
    if sel.threat.Some? && sel.threat.value in champ.counters {
      threatBonus := Some(2.0);
      score := score + 2.0;
      hasData := true;
    }
  }

  /** The ally-synergy block: pool both synergy records, add twice their weight, or flag them missing. */
  method AddSynergy(t: Tables, c: Curves, sel: Selection, n: Names, champ: Champion, score0: real)
    returns (score: real, synergyInfo: Option<Term>, allySupportMissing: bool)
    ensures score == score0 + 2.0 * WeightedDelta(SynergyPooled(t, sel, n, champ), c.conf)
    ensures synergyInfo == Annotate(SynergyPooled(t, sel, n, champ), c.sqrt)
    ensures allySupportMissing == (Truthy(sel.allySupport) && Truthy(n.allySupport) && SynergyPooled(t, sel, n, champ).None?)
  {
    score, synergyInfo, allySupportMissing := score0, None, false;
    if Truthy(sel.allySupport) && Truthy(n.allySupport) {
      var ally := n.allySupport.value;
      var adcSynergy := if champ.name in t.bottom then Lookup(t.bottom[champ.name].synergy, ally) else None;
      var supportSynergy := if ally in t.support then Lookup(t.support[ally].synergyBottom, champ.name) else None;
      var candidates := Present(adcSynergy, supportSynergy);
      var combined := Combine(candidates);
      if combined.Some? {
        synergyInfo := Some(Describe(combined.value, c.sqrt));
        score := score + WeightedDelta(combined, c.conf) * 2.0;
      } else {
        allySupportMissing := true;
      }
    }
  }

  /** The enemy-support block: pool our record and the support's negated one, add half their weight. */
  method AddEnemySupport(t: Tables, c: Curves, sel: Selection, n: Names, champ: Champion, score0: real)
    returns (score: real, vsEnemySupportInfo: Option<Term>)
    ensures score == score0 + 0.5 * WeightedDelta(EnemySupportPooled(t, sel, n, champ), c.conf)
    ensures vsEnemySupportInfo == Annotate(EnemySupportPooled(t, sel, n, champ), c.sqrt)
  {
    score, vsEnemySupportInfo := score0, None;
    if Truthy(sel.enemySupport) && champ.name in t.bottom && Truthy(n.enemySupport) {
      var enemy := n.enemySupport.value;
      var adcVsEnemySupport := Lookup(t.bottom[champ.name].counters, enemy);
      var supportVsBottom := if enemy in t.support then Lookup(t.support[enemy].vsBottom, champ.name) else None;
      var candidates := Present(adcVsEnemySupport, Mirror(supportVsBottom));
      var combined := Combine(candidates);
      if combined.Some? {
        vsEnemySupportInfo := Some(Describe(combined.value, c.sqrt));
        score := score + WeightedDelta(combined, c.conf) * 0.5;
      }
    }
  }

  /** The enemy-bottom block: pool our record and the laner's negated one, add a fifth of their weight, or flag them missing. */
  method AddEnemyBottom(t: Tables, c: Curves, sel: Selection, n: Names, champ: Champion, score0: real)
    returns (score: real, vsEnemyBottomInfo: Option<Term>, enemyBottomMissing: bool)
    ensures score == score0 + 0.2 * WeightedDelta(EnemyBottomPooled(t, sel, n, champ), c.conf)
    ensures vsEnemyBottomInfo == Annotate(EnemyBottomPooled(t, sel, n, champ), c.sqrt)
    ensures enemyBottomMissing == (Truthy(sel.enemyAdc) && Truthy(n.enemyBottom) && champ.name in t.bottom
                                   && EnemyBottomPooled(t, sel, n, champ).None?)
  {
    score, vsEnemyBottomInfo, enemyBottomMissing := score0, None, false;
    if Truthy(sel.enemyAdc) && Truthy(n.enemyBottom) && champ.name in t.bottom {
      var enemy := n.enemyBottom.value;
      var adcVsEnemyBottom := Lookup(t.bottom[champ.name].enemyBottom, enemy);
      var enemyVsUs := if enemy in t.bottom then Lookup(t.bottom[enemy].enemyBottom, champ.name) else None;
      var candidates := Present(adcVsEnemyBottom, Mirror(enemyVsUs));
      var combined := Combine(candidates);
      if combined.Some? {
        vsEnemyBottomInfo := Some(Describe(combined.value, c.sqrt));
        score := score + WeightedDelta(combined, c.conf) * 0.2;
      } else {
        enemyBottomMissing := true;
      }
    }
  }

  /** Every bottom laner with its raw score, in roster order. */
  function RawScores(t: Tables, c: Curves, sel: Selection, roster: Roster): (rs: seq<RawScore<Breakdown>>)
    ensures |rs| == |roster.adcs|
  {
    var n := ResolveNames(sel, roster);
    seq(|roster.adcs|, i requires 0 <= i < |roster.adcs| => Score(t, c, sel, n, roster.adcs[i]))
  }

  /** `scoredChampions`: normalised, without the ally support's id, sorted by score. */
  function ScoredChampions(t: Tables, c: Curves, sel: Selection, roster: Roster): seq<Scored<Breakdown>> {
    Rank(RawScores(t, c, sel, roster), Blind(sel), sel.allySupport)
  }

  // ---------------------------------------------------------------------------
  // Properties of the raw score
  // ---------------------------------------------------------------------------

  /**
   * The synergy term adds exactly twice the weighted pooled synergy to what
   * the candidate scores with no ally support selected, and is absent
   * without a resolvable ally support.
   */
  lemma SynergyTerm(t: Tables, c: Curves, sel: Selection, roster: Roster, champ: Champion)
    ensures var off := sel.(allySupport := None);
            Score(t, c, sel, ResolveNames(sel, roster), champ).raw
            == Score(t, c, off, ResolveNames(off, roster), champ).raw
               + 2.0 * WeightedDelta(SynergyPooled(t, sel, ResolveNames(sel, roster), champ), c.conf)
    ensures ResolveNames(sel, roster).allySupport.None? ==> SynergyPooled(t, sel, ResolveNames(sel, roster), champ).None?
  {
    var n := ResolveNames(sel, roster);
    var off := sel.(allySupport := None);
    var m := ResolveNames(off, roster);
    assert SynergyPooled(t, off, m, champ).None?;
    assert EnemySupportPooled(t, off, m, champ) == EnemySupportPooled(t, sel, n, champ);
    assert EnemyBottomPooled(t, off, m, champ) == EnemyBottomPooled(t, sel, n, champ);
  }

  /**
   * `allySupportMissing` is set exactly when an ally support resolves but
   * neither the candidate's synergy table nor the support's bottom-synergy
   * table has a record for the pair.
   */
  lemma AllySupportMissing(t: Tables, c: Curves, sel: Selection, roster: Roster, champ: Champion)
    ensures var n := ResolveNames(sel, roster);
            Score(t, c, sel, n, champ).breakdown.allySupportMissing
            <==> n.allySupport.Some?
                 && !(champ.name in t.bottom && n.allySupport.value in t.bottom[champ.name].synergy)
                 && !(n.allySupport.value in t.support && champ.name in t.support[n.allySupport.value].synergyBottom)
  {
  }

  /**
   * The enemy-support term adds half the weighted pooled value, and pools
   * nothing for a candidate without its own `MATCHUP_DATA` entry.
   */
  lemma EnemySupportTerm(t: Tables, c: Curves, sel: Selection, roster: Roster, champ: Champion)
    ensures var off := sel.(enemySupport := None);
            Score(t, c, sel, ResolveNames(sel, roster), champ).raw
            == Score(t, c, off, ResolveNames(off, roster), champ).raw
               + 0.5 * WeightedDelta(EnemySupportPooled(t, sel, ResolveNames(sel, roster), champ), c.conf)
    ensures champ.name !in t.bottom ==> EnemySupportPooled(t, sel, ResolveNames(sel, roster), champ).None?
  {
    var n := ResolveNames(sel, roster);
    var off := sel.(enemySupport := None);
    var m := ResolveNames(off, roster);
    assert EnemySupportPooled(t, off, m, champ).None?;
    assert SynergyPooled(t, off, m, champ) == SynergyPooled(t, sel, n, champ);
    assert EnemyBottomPooled(t, off, m, champ) == EnemyBottomPooled(t, sel, n, champ);
  }

  /**
   * When only the enemy support's mirror record exists, the term weighs that
   * record negated: the enemy support doing well is bad for the candidate.
   */
  lemma EnemySupportMirror(t: Tables, c: Curves, sel: Selection, roster: Roster, champ: Champion)
    requires champ.name in t.bottom
    requires ResolveNames(sel, roster).enemySupport.Some?
    requires var enemy := ResolveNames(sel, roster).enemySupport.value;
             enemy !in t.bottom[champ.name].counters && enemy in t.support && champ.name in t.support[enemy].vsBottom
    ensures var enemy := ResolveNames(sel, roster).enemySupport.value;
            WeightedDelta(EnemySupportPooled(t, sel, ResolveNames(sel, roster), champ), c.conf)
            == -WeightedDelta(Some(t.support[enemy].vsBottom[champ.name]), c.conf)
  {
    var n := ResolveNames(sel, roster);
    var m := t.support[n.enemySupport.value].vsBottom[champ.name];
    var mirrored := MatchupValue(-m.delta, m.games);
    assert EnemySupportValues(t, n.enemySupport.value, champ) == [mirrored];
    CombineSingleWeight(mirrored, c.conf);
    WeightedDeltaNegate(m, c.conf);
  }

  /**
   * The enemy-bottom term adds a fifth of the weighted pooled value;
   * `enemyBottomMissing` is set exactly when the enemy laner resolves, the
   * candidate has an entry, and neither side has a record for the pair.
   */
  lemma EnemyBottomTerm(t: Tables, c: Curves, sel: Selection, roster: Roster, champ: Champion)
    ensures var off := sel.(enemyAdc := None);
            Score(t, c, sel, ResolveNames(sel, roster), champ).raw
            == Score(t, c, off, ResolveNames(off, roster), champ).raw
               + 0.2 * WeightedDelta(EnemyBottomPooled(t, sel, ResolveNames(sel, roster), champ), c.conf)
    ensures var n := ResolveNames(sel, roster);
            Score(t, c, sel, n, champ).breakdown.enemyBottomMissing
            <==> n.enemyBottom.Some? && champ.name in t.bottom
                 && n.enemyBottom.value !in t.bottom[champ.name].enemyBottom
                 && !(n.enemyBottom.value in t.bottom && champ.name in t.bottom[n.enemyBottom.value].enemyBottom)
  {
    var n := ResolveNames(sel, roster);
    var off := sel.(enemyAdc := None);
    var m := ResolveNames(off, roster);
    assert EnemyBottomPooled(t, off, m, champ).None?;
    assert SynergyPooled(t, off, m, champ) == SynergyPooled(t, sel, n, champ);
    assert EnemySupportPooled(t, off, m, champ) == EnemySupportPooled(t, sel, n, champ);
  }

  /** Countering the selected threat adds exactly 2; otherwise the threat changes nothing. */
  lemma ThreatBonus(t: Tables, c: Curves, sel: Selection, roster: Roster, champ: Champion, threat: Threat)
    ensures var on := sel.(threat := Some(threat));
            var off := sel.(threat := None);
            Score(t, c, on, ResolveNames(on, roster), champ).raw
            == Score(t, c, off, ResolveNames(off, roster), champ).raw + (if threat in champ.counters then 2.0 else 0.0)
  {
    var on := sel.(threat := Some(threat));
    var off := sel.(threat := None);
    var n := ResolveNames(on, roster);
    assert n == ResolveNames(off, roster);
    assert SynergyPooled(t, on, n, champ) == SynergyPooled(t, off, n, champ);
    assert EnemySupportPooled(t, on, n, champ) == EnemySupportPooled(t, off, n, champ);
    assert EnemyBottomPooled(t, on, n, champ) == EnemyBottomPooled(t, off, n, champ);
  }

  /** A candidate has data exactly when it has a `MATCHUP_DATA` entry or counters the selected threat. */
  lemma HasData(t: Tables, c: Curves, sel: Selection, roster: Roster, champ: Champion)
    ensures Score(t, c, sel, ResolveNames(sel, roster), champ).hasData
            <==> champ.name in t.bottom || (sel.threat.Some? && sel.threat.value in champ.counters)
  {
  }

  /** With no filter set, every raw score is 0 and no term or flag is shown. */
  lemma BlindScoresZero(t: Tables, c: Curves, sel: Selection, roster: Roster, champ: Champion)
    requires Blind(sel)
    ensures var r := Score(t, c, sel, ResolveNames(sel, roster), champ);
            r.raw == 0.0 && r.breakdown.synergy.None? && r.breakdown.vsEnemySupport.None?
            && r.breakdown.vsEnemyBottom.None? && !r.breakdown.allySupportMissing && !r.breakdown.enemyBottomMissing
  {
  }

  // ---------------------------------------------------------------------------
  // Properties of the ranked list
  // ---------------------------------------------------------------------------

  /**
   * The ranked list holds exactly the scored bottom laners whose id is not
   * the ally support's, ordered by non-increasing score, stably, with every
   * score in [20, 100], and all 50 when no filter is set.
   */
  lemma RankedList(t: Tables, c: Curves, sel: Selection, roster: Roster)
    ensures var out := ScoredChampions(t, c, sel, roster);
            var scaled := Scale(RawScores(t, c, sel, roster), Blind(sel));
            && Sorting.SortedDesc(out, ScoreKey)
            && (forall x :: x in out ==> x in scaled && sel.allySupport != Some(x.champ.id))
            && (forall x :: x in scaled && sel.allySupport != Some(x.champ.id) ==> x in out)
            && (forall x :: x in out ==> 20 <= x.score <= 100)
            && (Blind(sel) ==> forall x :: x in out ==> x.score == 50)
  {
    var rs := RawScores(t, c, sel, roster);
    RankSorted(rs, Blind(sel), sel.allySupport);
    RankMembers(rs, Blind(sel), sel.allySupport);
    RankBounds(rs, Blind(sel), sel.allySupport);
    if Blind(sel) {
      RankBlind(rs, sel.allySupport);
    }
  }

  /** Among candidates with data, a higher raw score never shows a lower score. */
  lemma ScoresFollowRawScores(t: Tables, c: Curves, sel: Selection, roster: Roster, i: nat, j: nat)
    requires i < |roster.adcs| && j < |roster.adcs|
    requires var rs := RawScores(t, c, sel, roster);
             rs[i].hasData && rs[j].hasData && rs[i].raw <= rs[j].raw
    ensures var scaled := Scale(RawScores(t, c, sel, roster), Blind(sel));
            scaled[i].champ == roster.adcs[i] && scaled[i].score <= scaled[j].score
  {
    ScaleMonotone(RawScores(t, c, sel, roster), Blind(sel), i, j);
  }
}
