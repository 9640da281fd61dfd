/**
 * The bottom-lane picker's filter state: the selected ally support, enemy
 * support, enemy bottom laner and threat, the guard that reads them from the
 * query string on load, and the two support handlers that keep the ally and
 * the enemy support from being the same champion.
 */
module Filters {
  import opened Wrappers
  import opened Champions

  /** The query-string spelling of a threat. */
  function ThreatName(threat: Threat): (name: string)
    ensures name in ["assassin", "tank", "poke"]
  {
    match threat
    case Assassin => "assassin"
    case Tank => "tank"
    case Poke => "poke"
  }

  /** `threat === "assassin" || threat === "tank" || threat === "poke"`: the threat a parameter names, if any. */
  function ParseThreat(param: Option<string>): (r: Option<Threat>)
    ensures r.Some? <==> param == Some("assassin") || param == Some("tank") || param == Some("poke")
    ensures r.Some? ==> param == Some(ThreatName(r.value))
  {
    if param == Some("assassin") then Some(Assassin)
    else if param == Some("tank") then Some(Tank)
    else if param == Some("poke") then Some(Poke)
    else None
  }

  /** Parsing the spelling of a threat gives the threat back. */
  lemma ParseThreatName(threat: Threat)
    ensures ParseThreat(Some(ThreatName(threat))) == Some(threat)
  {
  }

  /** `param && list.some(c => c.id === param)`: the parameter when it is the id of a listed champion. */
  function Known(param: Option<string>, list: seq<Champion>): (r: Option<string>)
    ensures r.Some? <==> Truthy(param) && exists i :: 0 <= i < |list| && list[i].id == param.value
    ensures r.Some? ==> r == param
  {
    if Truthy(param) && FindById(list, param.value).Some? then param else None
  }

  class BottomFilters {
    var allySupport: Option<string>
    var enemySupport: Option<string>
    var enemyAdc: Option<string>
    var threat: Option<Threat>

    /** The ally and the enemy support are never the same selected champion. */
    predicate Exclusive()
      reads this
    {
      !(Truthy(allySupport) && enemySupport == allySupport)
    }

    /**
     * The state after the load effect: each parameter is taken when it is
     * valid, and an enemy support equal to the ally parameter is refused.
     */
    constructor FromQuery(ally: Option<string>, enemy: Option<string>, enemyAdcParam: Option<string>,
                          threatParam: Option<string>, roster: Roster)
      ensures allySupport == Known(ally, roster.supports)
      ensures enemySupport == (if Known(enemy, roster.supports).Some? && enemy != ally then enemy else None)
      ensures enemyAdc == Known(enemyAdcParam, roster.botLaners)
      ensures threat == ParseThreat(threatParam)
      ensures Exclusive()
      ensures allySupport.Some? ==> enemySupport != allySupport
    {
      allySupport := None;
      enemySupport := None;
      enemyAdc := None;
      threat := None;
      var isAllySupportValid := Known(ally, roster.supports).Some?;
      var isEnemySupportValid := Known(enemy, roster.supports).Some?;
      if isAllySupportValid {
        allySupport := ally;
      }
      if isEnemySupportValid && enemy != ally {
        enemySupport := enemy;
      }
      if Known(enemyAdcParam, roster.botLaners).Some? {
        enemyAdc := enemyAdcParam;
      }
      threat := ParseThreat(threatParam);
    }

    /** `handleSelectAllySupport`: select the ally and clear an enemy support that is the same champion. */
    method SelectAllySupport(value: Option<string>)
      modifies this
      ensures allySupport == value
      ensures enemySupport == (if Truthy(value) && value == old(enemySupport) then None else old(enemySupport))
      ensures enemyAdc == old(enemyAdc) && threat == old(threat)
      ensures Exclusive()
    {
      var previousEnemy := enemySupport;
      allySupport := value;
      if Truthy(value) && value == previousEnemy {
        enemySupport := None;
      }
    }

    /** `handleSelectEnemySupport`: select the enemy and clear an ally support that is the same champion. */
    method SelectEnemySupport(value: Option<string>)
      modifies this
      ensures enemySupport == value
      ensures allySupport == (if Truthy(value) && value == old(allySupport) then None else old(allySupport))
      ensures enemyAdc == old(enemyAdc) && threat == old(threat)
      ensures Exclusive()
    {
      var previousAlly := allySupport;
      enemySupport := value;
      if Truthy(value) && value == previousAlly {
        allySupport := None;
      }
    }
  }
}
