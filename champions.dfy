/**
 * The static reference data the engines are given: champion records and the
 * composition-threat enumeration. The lists themselves are inputs of the model.
 */
module Champions {
  import opened Wrappers

  /** An enemy team archetype a player can select. */
  datatype Threat = Assassin | Tank | Poke

  /**
   * A champion record. `counters` is the threat list of a bottom-lane champion;
   * `archetype` is the `type` field of a support (enchanter, engage, poke, ...).
   * Each role's list uses only the field that role has.
   */
  datatype Champion = Champion(id: string, name: string, counters: seq<Threat>, archetype: string)

  /** The three champion lists: `adcs`, `supports` and `botLaners`. */
  datatype Roster = Roster(adcs: seq<Champion>, supports: seq<Champion>, botLaners: seq<Champion>)

  /** JavaScript truthiness of an optional string: present and not empty. */
  predicate Truthy(s: Option<string>) {
    s.Some? && s.value != ""
  }

  /** `list.find(c => c.id === id)`: the first champion with that id. */
  function FindById(list: seq<Champion>, id: string): (r: Option<Champion>)
    ensures r.Some? <==> exists i :: 0 <= i < |list| && list[i].id == id
    ensures r.Some? ==> r.value.id == id
    ensures r.Some? ==> exists i :: 0 <= i < |list| && list[i] == r.value &&
                          forall j :: 0 <= j < i ==> list[j].id != id
  {
    if list == [] then None
    else if list[0].id == id then Some(list[0])
    else FindById(list[1..], id)
  }

  /**
   * `selected ? list.find(c => c.id === selected)?.name : null`, together with
   * the truthiness test every use puts on it: the name of the selected champion,
   * present only when a selection is made, found, and has a non-empty name.
   */
  function ResolveName(selected: Option<string>, list: seq<Champion>): (r: Option<string>)
    ensures r.Some? <==> Truthy(selected) && FindById(list, selected.value).Some?
                         && FindById(list, selected.value).value.name != ""
    ensures r.Some? ==> r.value != "" && exists i :: 0 <= i < |list| && list[i].id == selected.value && list[i].name == r.value
  {
    if !Truthy(selected) then None
    else match FindById(list, selected.value)
      case None => None
      case Some(c) => if c.name == "" then None else Some(c.name)
  }
}
