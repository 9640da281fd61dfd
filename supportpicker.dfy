/**
 * The support picker's scoring engine (`scoredSupports`): every support is
 * scored against the ally bottom laner, the enemy bottom laner, the enemy
 * support and the threat, normalised, the ally bottom laner's id is
 * filtered out and the list is sorted by score.
 *
 * As for the bottom-lane picker, `Score` states the per-support body and
 * `ScoreCandidate` performs it block by block on local variables.
 */
module SupportPicker {
  import opened Wrappers
  import opened Champions
  import opened Weighting
  import opened Combining
  import opened Repository
  import opened Ranking

  /** The four filters: ally bottom laner, enemy support, enemy bottom laner, threat. */
  datatype Selection = Selection(
    allyAdc: Option<string>,
    enemySupport: Option<string>,
    enemyBot: Option<string>,
    threat: Option<Threat>)

  /** The display names the selected ids resolve to. */
  datatype Names = Names(allyAdc: Option<string>, enemySupport: Option<string>, enemyBot: Option<string>)

  /** The `breakdown` shown with a support. */
  datatype Breakdown = Breakdown(
    synergy: Option<Term>,
    vsEnemySupport: Option<Term>,
    vsEnemyBot: Option<Term>,
    threatBonus: Option<real>,
    names: Names,
    threatType: Option<Threat>)

  /** The ally among `adcs`, the enemy support among `supports`, the enemy laner among `botLaners`. */
  function ResolveNames(sel: Selection, roster: Roster): Names {
    Names(
      ResolveName(sel.allyAdc, roster.adcs),
      ResolveName(sel.enemySupport, roster.supports),
      ResolveName(sel.enemyBot, roster.botLaners))
  }

  /** No filter is set. */
  predicate Blind(sel: Selection) {
    !Truthy(sel.allyAdc) && !Truthy(sel.enemySupport) && !Truthy(sel.enemyBot) && sel.threat.None?
  }

  /** The support archetype that answers a threat: enchanters shield against assassins, poke wears down tanks, engage closes on poke. */
  function Answer(threat: Threat): (archetype: string)
    ensures threat == Assassin ==> archetype == "enchanter"
    ensures threat == Tank ==> archetype == "poke"
    ensures threat == Poke ==> archetype == "engage"
  {
    match threat
    case Assassin => "enchanter"
    case Tank => "poke"
    case Poke => "engage"
  }

  /** The ally laner's synergy with the support, then the support's synergy with the ally laner. */
  function SynergyValues(t: Tables, ally: string, supp: Champion): seq<MatchupValue> {
    Present(
      if ally in t.bottom then Lookup(t.bottom[ally].synergy, supp.name) else None,
      if supp.name in t.support then Lookup(t.support[supp.name].synergyBottom, ally) else None)
  }

  /** The pooled synergy value, when the term is evaluated and finds a record. */
  function SynergyPooled(t: Tables, sel: Selection, n: Names, supp: Champion): Option<MatchupValue> {
    if Truthy(sel.allyAdc) && Truthy(n.allyAdc) then CombineKeepTotal(SynergyValues(t, n.allyAdc.value, supp)) else None
  }

  /** The enemy laner's own record against the support (positive is bad for the support). */
  function EnemyBotRecord(t: Tables, sel: Selection, n: Names, supp: Champion): Option<MatchupValue> {
    if Truthy(sel.enemyBot) && Truthy(n.enemyBot) && n.enemyBot.value in t.bottom
    then Lookup(t.bottom[n.enemyBot.value].counters, supp.name) else None
  }

  /** The support's own record against the enemy support. */
  function EnemySupportRecord(t: Tables, sel: Selection, n: Names, supp: Champion): Option<MatchupValue> {
    if Truthy(sel.enemySupport) && Truthy(n.enemySupport) && supp.name in t.support
    then Lookup(t.support[supp.name].vsSupport, n.enemySupport.value) else None
  }

  /** `threatCounters[selectedEnemyThreat]?.includes(supp.type)`. */
  predicate AnswersThreat(sel: Selection, supp: Champion) {
    sel.threat.Some? && supp.archetype == Answer(sel.threat.value)
  }

  function Annotate(v: Option<MatchupValue>, sqrt: SquareRoot): Option<Term> {
    if v.Some? then Some(Describe(v.value, sqrt)) else None
  }

  /** The enemy laner's record shown from the support's side: delta negated, same margin and games. */
  function AnnotateNegated(v: Option<MatchupValue>, sqrt: SquareRoot): Option<Term> {
    if v.Some? then Some(Term(-v.value.delta, ConfidenceMargin(v, sqrt), v.value.games)) else None
  }

  /**
   * The raw score of one support: twice the weighted synergy, minus one and
   * a half times the enemy laner's weighted record against it, its own
   * weighted record against the enemy support, and 2 for answering the
   * threat. `hasData` records that one of the four terms contributed.
   */
  function Score(t: Tables, c: Curves, sel: Selection, n: Names, supp: Champion): RawScore<Breakdown> {
    var synergy := SynergyPooled(t, sel, n, supp);
    var enemyBot := EnemyBotRecord(t, sel, n, supp);
    var enemySupport := EnemySupportRecord(t, sel, n, supp);
    var threat := AnswersThreat(sel, supp);
    RawScore(
      supp,
      2.0 * WeightedDelta(synergy, c.conf) - 1.5 * WeightedDelta(enemyBot, c.conf)
        + WeightedDelta(enemySupport, c.conf) + (if threat then 2.0 else 0.0),
      synergy.Some? || enemyBot.Some? || enemySupport.Some? || threat,
      Breakdown(
        Annotate(synergy, c.sqrt),
        Annotate(enemySupport, c.sqrt),
        AnnotateNegated(enemyBot, c.sqrt),
        if threat then Some(2.0) else None,
        n,
        sel.threat))
  }

  /** The per-support body of `supports.map(supp => ...)`, block by block. */
  method ScoreCandidate(t: Tables, c: Curves, sel: Selection, n: Names, supp: Champion) returns (r: RawScore<Breakdown>)
    ensures r == Score(t, c, sel, n, supp)
  {
    var score := 0.0;
    var hasData := false;
    var synergyInfo, vsEnemyBotInfo, vsEnemySupportInfo;
    score, hasData, synergyInfo := AddSynergy(t, c, sel, n, supp, score, hasData);
    score, hasData, vsEnemyBotInfo := AddEnemyBot(t, c, sel, n, supp, score, hasData);
    score, hasData, vsEnemySupportInfo := AddEnemySupport(t, c, sel, n, supp, score, hasData);
    var threatBonus;
    score, hasData, threatBonus := AddThreat(sel, supp, score, hasData);
    r := RawScore(supp, score, hasData,
      Breakdown(synergyInfo, vsEnemySupportInfo, vsEnemyBotInfo, threatBonus, n, sel.threat));
  }

  /** The threat block: 2 for a support whose type answers the selected threat. */
  method AddThreat(sel: Selection, supp: Champion, score0: real, hasData0: bool)
    returns (score: real, hasData: bool, threatBonus: Option<real>)
    ensures score == score0 + (if AnswersThreat(sel, supp) then 2.0 else 0.0)
    ensures hasData == (hasData0 || AnswersThreat(sel, supp))
    ensures threatBonus == (if AnswersThreat(sel, supp) then Some(2.0) else None)
  {
    score, hasData, threatBonus := score0, hasData0, None;
    if sel.threat.Some? && supp.archetype == Answer(sel.threat.value) {
      threatBonus := Some(2.0);
      score := score + 2.0;
      hasData := true;
    }
  }

  /** The synergy block: pool both synergy records, keeping their total games, and add twice their weight. */
  method AddSynergy(t: Tables, c: Curves, sel: Selection, n: Names, supp: Champion, score0: real, hasData0: bool)
    returns (score: real, hasData: bool, synergyInfo: Option<Term>)
    ensures score == score0 + 2.0 * WeightedDelta(SynergyPooled(t, sel, n, supp), c.conf)
    ensures hasData == (hasData0 || SynergyPooled(t, sel, n, supp).Some?)
    ensures synergyInfo == Annotate(SynergyPooled(t, sel, n, supp), c.sqrt)
  {
    score, hasData, synergyInfo := score0, hasData0, None;
    if Truthy(sel.allyAdc) && Truthy(n.allyAdc) {
      var ally := n.allyAdc.value;
      var bottomSynergy := if ally in t.bottom then Lookup(t.bottom[ally].synergy, supp.name) else None;
      var supportSynergy := if supp.name in t.support then Lookup(t.support[supp.name].synergyBottom, ally) else None;
      var synergyValues := Present(bottomSynergy, supportSynergy);
      if |synergyValues| > 0 {
        var combined := CombineKeepTotal(synergyValues);
        synergyInfo := Some(Describe(combined.value, c.sqrt));
        score := score + WeightedDelta(combined, c.conf) * 2.0;
        hasData := true;
      }
    }
  }

  /** The enemy-bottom block: subtract one and a half times the enemy laner's weighted record. */
  method AddEnemyBot(t: Tables, c: Curves, sel: Selection, n: Names, supp: Champion, score0: real, hasData0: bool)
    returns (score: real, hasData: bool, vsEnemyBotInfo: Option<Term>)
    ensures score == score0 - 1.5 * WeightedDelta(EnemyBotRecord(t, sel, n, supp), c.conf)
    ensures hasData == (hasData0 || EnemyBotRecord(t, sel, n, supp).Some?)
    ensures vsEnemyBotInfo == AnnotateNegated(EnemyBotRecord(t, sel, n, supp), c.sqrt)
  {
    score, hasData, vsEnemyBotInfo := score0, hasData0, None;
    if Truthy(sel.enemyBot) && Truthy(n.enemyBot) {
      if n.enemyBot.value in t.bottom {
        var enemyVsSupport := Lookup(t.bottom[n.enemyBot.value].counters, supp.name);
        if enemyVsSupport.Some? {
          vsEnemyBotInfo := Some(Term(-enemyVsSupport.value.delta, ConfidenceMargin(enemyVsSupport, c.sqrt), enemyVsSupport.value.games));
          var weightedVsEnemyBot := -WeightedDelta(enemyVsSupport, c.conf);
          score := score + weightedVsEnemyBot * 1.5;
          hasData := true;
        }
      }
    }
  }

  /** The enemy-support block: add the support's own weighted record against the enemy support. */
  method AddEnemySupport(t: Tables, c: Curves, sel: Selection, n: Names, supp: Champion, score0: real, hasData0: bool)
    returns (score: real, hasData: bool, vsEnemySupportInfo: Option<Term>)
    ensures score == score0 + WeightedDelta(EnemySupportRecord(t, sel, n, supp), c.conf)
    ensures hasData == (hasData0 || EnemySupportRecord(t, sel, n, supp).Some?)
    ensures vsEnemySupportInfo == Annotate(EnemySupportRecord(t, sel, n, supp), c.sqrt)
  {
    score, hasData, vsEnemySupportInfo := score0, hasData0, None;
    if Truthy(sel.enemySupport) && Truthy(n.enemySupport) {
      if supp.name in t.support {
        var vsEnemy := Lookup(t.support[supp.name].vsSupport, n.enemySupport.value);
        if vsEnemy.Some? {
          vsEnemySupportInfo := Some(Describe(vsEnemy.value, c.sqrt));
          score := score + WeightedDelta(vsEnemy, c.conf);
          hasData := true;
        }
      }
    }
  }

  /** Every support with its raw score, in roster order. */
  function RawScores(t: Tables, c: Curves, sel: Selection, roster: Roster): (rs: seq<RawScore<Breakdown>>)
    ensures |rs| == |roster.supports|
  {
    var n := ResolveNames(sel, roster);
    seq(|roster.supports|, i requires 0 <= i < |roster.supports| => Score(t, c, sel, n, roster.supports[i]))
  }

  /** `scoredSupports`: normalised, without the ally bottom laner's id, sorted by score. */
  function ScoredSupports(t: Tables, c: Curves, sel: Selection, roster: Roster): seq<Scored<Breakdown>> {
    Rank(RawScores(t, c, sel, roster), Blind(sel), sel.allyAdc)
  }

  // ---------------------------------------------------------------------------
  // Properties of the raw score
  // ---------------------------------------------------------------------------

  /**
   * The synergy term pools the ally laner's and the support's records, adds
   * exactly twice their weight to what the support scores without an ally
   * laner, and is shown with the total games and the pooled delta.
   */
  lemma SynergyTerm(t: Tables, c: Curves, sel: Selection, roster: Roster, supp: Champion)
    ensures var off := sel.(allyAdc := None);
            Score(t, c, sel, ResolveNames(sel, roster), supp).raw
            == Score(t, c, off, ResolveNames(off, roster), supp).raw
               + 2.0 * WeightedDelta(SynergyPooled(t, sel, ResolveNames(sel, roster), supp), c.conf)
  {
    var n := ResolveNames(sel, roster);
    var off := sel.(allyAdc := None);
    var m := ResolveNames(off, roster);
    assert SynergyPooled(t, off, m, supp).None?;
    assert EnemyBotRecord(t, off, m, supp) == EnemyBotRecord(t, sel, n, supp);
    assert EnemySupportRecord(t, off, m, supp) == EnemySupportRecord(t, sel, n, supp);
  }

  /** Synergy is pooled exactly when an ally laner resolves and one of the two tables holds the pair. */
  lemma SynergyAvailable(t: Tables, c: Curves, sel: Selection, roster: Roster, supp: Champion)
    ensures var n := ResolveNames(sel, roster);
            SynergyPooled(t, sel, n, supp).Some? <==>
              n.allyAdc.Some?
              && ((n.allyAdc.value in t.bottom && supp.name in t.bottom[n.allyAdc.value].synergy)
                  || (supp.name in t.support && n.allyAdc.value in t.support[supp.name].synergyBottom))
    ensures var n := ResolveNames(sel, roster);
            SynergyPooled(t, sel, n, supp).Some? ==>
              Score(t, c, sel, n, supp).breakdown.synergy.value.games == TotalGames(SynergyValues(t, n.allyAdc.value, supp))
  {
  }

  /**
   * The enemy-bottom term subtracts one and a half times the enemy laner's
   * weighted record against the support, and shows that record's delta negated.
   */
  lemma EnemyBotTerm(t: Tables, c: Curves, sel: Selection, roster: Roster, supp: Champion)
    ensures var off := sel.(enemyBot := None);
            Score(t, c, sel, ResolveNames(sel, roster), supp).raw
            == Score(t, c, off, ResolveNames(off, roster), supp).raw
               - 1.5 * WeightedDelta(EnemyBotRecord(t, sel, ResolveNames(sel, roster), supp), c.conf)
    ensures var n := ResolveNames(sel, roster);
            var rec := EnemyBotRecord(t, sel, n, supp);
            rec.Some? ==> Score(t, c, sel, n, supp).breakdown.vsEnemyBot.value.delta == -rec.value.delta
  {
    var n := ResolveNames(sel, roster);
    var off := sel.(enemyBot := None);
    var m := ResolveNames(off, roster);
    assert EnemyBotRecord(t, off, m, supp).None?;
    assert SynergyPooled(t, off, m, supp) == SynergyPooled(t, sel, n, supp);
    assert EnemySupportRecord(t, off, m, supp) == EnemySupportRecord(t, sel, n, supp);
  }

  /** The enemy laner's good record against a support lowers that support's score, and conversely. */
  lemma EnemyBotSign(t: Tables, c: Curves, sel: Selection, roster: Roster, supp: Champion)
    ensures var n := ResolveNames(sel, roster);
            var rec := EnemyBotRecord(t, sel, n, supp);
            var off := sel.(enemyBot := None);
            var without := Score(t, c, off, ResolveNames(off, roster), supp).raw;
            && (rec.Some? && rec.value.delta >= 0.0 ==> Score(t, c, sel, n, supp).raw <= without)
            && (rec.Some? && rec.value.delta <= 0.0 ==> Score(t, c, sel, n, supp).raw >= without)
  {
    EnemyBotTerm(t, c, sel, roster, supp);
  }

  /** The enemy-support term adds the support's own weighted record, and only that. */
  lemma EnemySupportTerm(t: Tables, c: Curves, sel: Selection, roster: Roster, supp: Champion)
    ensures var off := sel.(enemySupport := None);
            Score(t, c, sel, ResolveNames(sel, roster), supp).raw
            == Score(t, c, off, ResolveNames(off, roster), supp).raw
               + WeightedDelta(EnemySupportRecord(t, sel, ResolveNames(sel, roster), supp), c.conf)
    ensures var n := ResolveNames(sel, roster);
            EnemySupportRecord(t, sel, n, supp).Some? <==>
              n.enemySupport.Some? && supp.name in t.support && n.enemySupport.value in t.support[supp.name].vsSupport
  {
    var n := ResolveNames(sel, roster);
    var off := sel.(enemySupport := None);
    var m := ResolveNames(off, roster);
    assert EnemySupportRecord(t, off, m, supp).None?;
    assert SynergyPooled(t, off, m, supp) == SynergyPooled(t, sel, n, supp);
    assert EnemyBotRecord(t, off, m, supp) == EnemyBotRecord(t, sel, n, supp);
  }

  /** Answering the selected threat adds exactly 2; otherwise the threat changes nothing. */
  lemma ThreatBonus(t: Tables, c: Curves, sel: Selection, roster: Roster, supp: Champion, threat: Threat)
    ensures var on := sel.(threat := Some(threat));
            var off := sel.(threat := None);
            Score(t, c, on, ResolveNames(on, roster), supp).raw
            == Score(t, c, off, ResolveNames(off, roster), supp).raw + (if supp.archetype == Answer(threat) then 2.0 else 0.0)
  {
    var on := sel.(threat := Some(threat));
    var off := sel.(threat := None);
    var n := ResolveNames(on, roster);
    assert n == ResolveNames(off, roster);
    assert SynergyPooled(t, on, n, supp) == SynergyPooled(t, off, n, supp);
    assert EnemyBotRecord(t, on, n, supp) == EnemyBotRecord(t, off, n, supp);
    assert EnemySupportRecord(t, on, n, supp) == EnemySupportRecord(t, off, n, supp);
  }

  /** A support has data exactly when one of the four terms found something to add. */
  lemma HasData(t: Tables, c: Curves, sel: Selection, roster: Roster, supp: Champion)
    ensures var n := ResolveNames(sel, roster);
            var r := Score(t, c, sel, n, supp);
            r.hasData <==> r.breakdown.synergy.Some? || r.breakdown.vsEnemyBot.Some?
                           || r.breakdown.vsEnemySupport.Some? || r.breakdown.threatBonus.Some?
    ensures var r := Score(t, c, sel, ResolveNames(sel, roster), supp);
            !r.hasData ==> r.raw == 0.0
  {
  }

  // ---------------------------------------------------------------------------
  // Properties of the ranked list
  // ---------------------------------------------------------------------------

  /**
   * The ranked list holds exactly the scored supports whose id is not the
   * ally bottom laner's, ordered by non-increasing score, with every score
   * in [20, 100], and all 50 when no filter is set.
   */
  lemma RankedList(t: Tables, c: Curves, sel: Selection, roster: Roster)
    ensures var out := ScoredSupports(t, c, sel, roster);
            var scaled := Scale(RawScores(t, c, sel, roster), Blind(sel));
            && Sorting.SortedDesc(out, ScoreKey)
            && (forall x :: x in out ==> x in scaled && sel.allyAdc != Some(x.champ.id))
            && (forall x :: x in scaled && sel.allyAdc != Some(x.champ.id) ==> x in out)
            && (forall x :: x in out ==> 20 <= x.score <= 100)
            && (Blind(sel) ==> forall x :: x in out ==> x.score == 50)
  {
    var rs := RawScores(t, c, sel, roster);
    RankSorted(rs, Blind(sel), sel.allyAdc);
    RankMembers(rs, Blind(sel), sel.allyAdc);
    RankBounds(rs, Blind(sel), sel.allyAdc);
    if Blind(sel) {
      RankBlind(rs, sel.allyAdc);
    }
  }

  /** Among supports with data, a higher raw score never shows a lower score; those without show 50. */
  lemma ScoresFollowRawScores(t: Tables, c: Curves, sel: Selection, roster: Roster, i: nat, j: nat)
    requires i < |roster.supports| && j < |roster.supports|
    ensures var rs := RawScores(t, c, sel, roster);
            var scaled := Scale(rs, Blind(sel));
            && (rs[i].hasData && rs[j].hasData && rs[i].raw <= rs[j].raw ==> scaled[i].score <= scaled[j].score)
            && (!rs[i].hasData ==> scaled[i].score == 50)
  {
    var rs := RawScores(t, c, sel, roster);
    if rs[i].hasData && rs[j].hasData && rs[i].raw <= rs[j].raw {
      ScaleMonotone(rs, Blind(sel), i, j);
    }
    if !rs[i].hasData {
      ScaleNeutral(rs, Blind(sel), i);
    }
  }
}
