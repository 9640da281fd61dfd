/**
 * The server's in-memory store (`MemStorage`): users and saved drafts kept in
 * two insertion-ordered maps. A JavaScript `Map` remembers the order in which
 * keys were first set, and both `getDrafts` (a stable sort) and
 * `getUserByUsername` (the first match) depend on it, so each map is paired
 * with the sequence of its keys in insertion order.
 *
 * Fresh ids (`randomUUID`) and the current time (`new Date()`) are passed in;
 * a time is its millisecond count.
 */
module Storage {
  import opened Wrappers
  import opened Champions
  import Sorting

  datatype User = User(id: string, username: string, password: string)

  /** What `createUser` is given: everything but the id. */
  datatype InsertUser = InsertUser(username: string, password: string)

  /** A saved draft. The optional columns are `null` when unset. */
  datatype Draft = Draft(
    id: string,
    name: string,
    adcChampion: string,
    allySupport: Option<string>,
    enemyAdc: Option<string>,
    enemySupport: Option<string>,
    enemyThreat: Option<string>,
    notes: Option<string>,
    createdAt: int,
    updatedAt: int)

  /** What `createDraft` is given: no id and no timestamps; optional fields may be missing. */
  datatype InsertDraft = InsertDraft(
    name: string,
    adcChampion: string,
    allySupport: Option<string>,
    enemyAdc: Option<string>,
    enemySupport: Option<string>,
    enemyThreat: Option<string>,
    notes: Option<string>)

  /**
   * What `updateDraft` is given (`Partial<InsertDraft>`): for every field,
   * `None` when the key is absent and `Some` of the new value otherwise.
   */
  datatype DraftPatch = DraftPatch(
    name: Option<string>,
    adcChampion: Option<string>,
    allySupport: Option<Option<string>>,
    enemyAdc: Option<Option<string>>,
    enemySupport: Option<Option<string>>,
    enemyThreat: Option<Option<string>>,
    notes: Option<Option<string>>)

  /** `value || null`: a missing or empty string becomes null. */
  function OrNull(value: Option<string>): (r: Option<string>)
    ensures r.Some? <==> Truthy(value)
    ensures r.Some? ==> r == value
  {
    if Truthy(value) then value else None
  }

  /** The draft `createDraft` builds: the given fields, optional ones `|| null`, created and updated now. */
  function NewDraft(id: string, d: InsertDraft, now: int): (r: Draft)
    ensures r.id == id && r.name == d.name && r.adcChampion == d.adcChampion
    ensures r.allySupport == OrNull(d.allySupport) && r.enemyAdc == OrNull(d.enemyAdc)
    ensures r.enemySupport == OrNull(d.enemySupport) && r.enemyThreat == OrNull(d.enemyThreat)
    ensures r.notes == OrNull(d.notes)
    ensures r.createdAt == r.updatedAt == now
  {
    Draft(id, d.name, d.adcChampion, OrNull(d.allySupport), OrNull(d.enemyAdc),
          OrNull(d.enemySupport), OrNull(d.enemyThreat), OrNull(d.notes), now, now)
  }

  /** `{ ...existing, ...patch, updatedAt: now }`. */
  function Patched(existing: Draft, patch: DraftPatch, now: int): Draft {
    existing.(
      name := patch.name.GetOr(existing.name),
      adcChampion := patch.adcChampion.GetOr(existing.adcChampion),
      allySupport := patch.allySupport.GetOr(existing.allySupport),
      enemyAdc := patch.enemyAdc.GetOr(existing.enemyAdc),
      enemySupport := patch.enemySupport.GetOr(existing.enemySupport),
      enemyThreat := patch.enemyThreat.GetOr(existing.enemyThreat),
      notes := patch.notes.GetOr(existing.notes),
      updatedAt := now)
  }

  /** The patch with no keys. */
  const NoChange := DraftPatch(None, None, None, None, None, None, None)

  /** The sort key of `getDrafts`: `getTime()` of the creation time. */
  function CreatedAt(d: Draft): int {
    d.createdAt
  }

  /** `s` without the element `x`. */
  function Without(s: seq<string>, x: string): (r: seq<string>)
    ensures forall i :: 0 <= i < |r| ==> r[i] in s && r[i] != x
    ensures forall y :: y in s && y != x ==> y in r
  {
    if s == [] then []
    else if s[0] == x then Without(s[1..], x)
    else [s[0]] + Without(s[1..], x)
  }

  /** No key occurs twice. */
  predicate Distinct(s: seq<string>) {
    forall i, j :: 0 <= i < j < |s| ==> s[i] != s[j]
  }

  /** `Array.from(values).find(user => user.username === username)`: the first user with that name. */
  function FindUser(users: seq<User>, username: string): (r: Option<User>)
    ensures r.Some? <==> exists i :: 0 <= i < |users| && users[i].username == username
    ensures r.Some? ==> exists i :: 0 <= i < |users| && users[i] == r.value && r.value.username == username &&
                          forall j :: 0 <= j < i ==> users[j].username != username
  {
    if users == [] then None
    else if users[0].username == username then Some(users[0])
    else
      var r := FindUser(users[1..], username);
      assert r.Some? ==> exists i :: 0 <= i < |users[1..]| && users[1..][i] == r.value &&
                           forall j :: 0 <= j < i ==> users[1..][j].username != username;
      r
  }

  class MemStorage {
    var users: map<string, User>
    var userOrder: seq<string>
    var drafts: map<string, Draft>
    var draftOrder: seq<string>

    /**
     * Each order lists its map's keys once, and every record is stored under
     * its own id.
     */
    predicate Valid()
      reads this
    {
      && Distinct(userOrder)
      && (forall k :: k in userOrder ==> k in users)
      && (forall k :: k in users ==> k in userOrder)
      && (forall k :: k in users ==> users[k].id == k)
      && Distinct(draftOrder)
      && (forall k :: k in draftOrder ==> k in drafts)
      && (forall k :: k in drafts ==> k in draftOrder)
      && (forall k :: k in drafts ==> drafts[k].id == k)
    }

    /** `Array.from(this.users.values())`. */
    function UserValues(): (r: seq<User>)
      reads this
      requires Valid()
      ensures |r| == |userOrder|
      ensures forall i :: 0 <= i < |r| ==> r[i] == users[userOrder[i]]
    {
      seq(|userOrder|, i requires 0 <= i < |userOrder| reads this requires Valid() => users[userOrder[i]])
    }

    /** `Array.from(this.drafts.values())`. */
    function DraftValues(): (r: seq<Draft>)
      reads this
      requires Valid()
      ensures |r| == |draftOrder|
      ensures forall i :: 0 <= i < |r| ==> r[i] == drafts[draftOrder[i]]
    {
      seq(|draftOrder|, i requires 0 <= i < |draftOrder| reads this requires Valid() => drafts[draftOrder[i]])
    }

    constructor ()
      ensures Valid()
      ensures users == map[] && drafts == map[] && userOrder == [] && draftOrder == []
    {
      users := map[];
      userOrder := [];
      drafts := map[];
      draftOrder := [];
    }

    method GetUser(id: string) returns (r: Option<User>)
      requires Valid()
      ensures r.Some? <==> id in users
      ensures r.Some? ==> r.value == users[id] && r.value.id == id
    {
      r := if id in users then Some(users[id]) else None;
    }

    /** The first user, in insertion order, with that username; none when nobody has it. */
    method GetUserByUsername(username: string) returns (r: Option<User>)
      requires Valid()
      ensures r.Some? <==> exists k :: k in users && users[k].username == username
      ensures r.Some? ==> r.value.id in users && users[r.value.id] == r.value && r.value.username == username
      ensures r.Some? ==> exists i :: 0 <= i < |userOrder| && userOrder[i] == r.value.id &&
                            forall j :: 0 <= j < i ==> users[userOrder[j]].username != username
    {
      var values := UserValues();
      r := FindUser(values, username);
      if r.None? {
        forall k | k in users
          ensures users[k].username != username
        {
          var i :| 0 <= i < |userOrder| && userOrder[i] == k;
          assert values[i] == users[k];
        }
      } else {
        var i :| 0 <= i < |values| && values[i] == r.value && r.value.username == username &&
                 forall j :: 0 <= j < i ==> values[j].username != username;
        assert userOrder[i] in users;
        assert userOrder[i] == r.value.id;
      }
    }

    /** Stores the user under the fresh id, after every existing user. */
    method CreateUser(insertUser: InsertUser, id: string) returns (user: User)
      requires Valid() && id !in users
      modifies this
      ensures Valid()
      ensures user == User(id, insertUser.username, insertUser.password)
      ensures users == old(users)[id := user] && userOrder == old(userOrder) + [id]
      ensures drafts == old(drafts) && draftOrder == old(draftOrder)
    {
      user := User(id, insertUser.username, insertUser.password);
      users := users[id := user];
      userOrder := userOrder + [id];
    }

    /**
     * Every stored draft exactly once, newest first; drafts created at the
     * same time keep their insertion order.
     */
    method GetDrafts() returns (r: seq<Draft>)
      requires Valid()
      ensures Sorting.SortedDesc(r, CreatedAt)
      ensures multiset(r) == multiset(DraftValues())
      ensures forall k :: k in drafts ==> multiset(r)[drafts[k]] == 1
      ensures forall d :: d in r ==> d.id in drafts && drafts[d.id] == d
      ensures forall t :: Sorting.WithKey(r, CreatedAt, t) == Sorting.WithKey(DraftValues(), CreatedAt, t)
    {
      var values := DraftValues();
      r := Sorting.SortDesc(values, CreatedAt);
      Sorting.SortDescSorted(values, CreatedAt);
      Sorting.SortDescPermutes(values, CreatedAt);
      forall t
        ensures Sorting.WithKey(r, CreatedAt, t) == Sorting.WithKey(values, CreatedAt, t)
      {
        Sorting.SortDescStable(values, CreatedAt, t);
      }
      DraftValuesOnce();
      forall d | d in r
        ensures d.id in drafts && drafts[d.id] == d
      {
        assert d in multiset(r);
      }
    }

    /** Every stored draft occurs once among the values, and every value is stored under its id. */
    lemma DraftValuesOnce()
      requires Valid()
      ensures forall k :: k in drafts ==> multiset(DraftValues())[drafts[k]] == 1
      ensures forall d :: d in multiset(DraftValues()) ==> d.id in drafts && drafts[d.id] == d
    {
      var values := DraftValues();
      DraftValuesDistinct();
      forall k | k in drafts
        ensures multiset(values)[drafts[k]] == 1
      {
        var i :| 0 <= i < |draftOrder| && draftOrder[i] == k;
        assert values[i] == drafts[k];
        DistinctCount(values, i);
      }
      forall d | d in multiset(values)
        ensures d.id in drafts && drafts[d.id] == d
      {
        assert d in values;
        var i :| 0 <= i < |values| && values[i] == d;
        assert draftOrder[i] in drafts;
      }
    }

    /** The stored drafts are pairwise different, since their ids are. */
    lemma DraftValuesDistinct()
      requires Valid()
      ensures forall i, j :: 0 <= i < j < |DraftValues()| ==> DraftValues()[i] != DraftValues()[j]
    {
      var values := DraftValues();
      forall i, j | 0 <= i < j < |values|
        ensures values[i] != values[j]
      {
        assert values[i].id == draftOrder[i] && values[j].id == draftOrder[j];
      }
    }

    method GetDraft(id: string) returns (r: Option<Draft>)
      requires Valid()
      ensures r.Some? <==> id in drafts
      ensures r.Some? ==> r.value == drafts[id] && r.value.id == id
    {
      r := if id in drafts then Some(drafts[id]) else None;
    }

    /**
     * Stores a new draft under the fresh id, after every existing draft;
     * `getDraft(id)` then returns it.
     */
    method CreateDraft(draft: InsertDraft, id: string, now: int) returns (created: Draft)
      requires Valid() && id !in drafts
      modifies this
      ensures Valid()
      ensures created == NewDraft(id, draft, now)
      ensures drafts == old(drafts)[id := created] && draftOrder == old(draftOrder) + [id]
      ensures users == old(users) && userOrder == old(userOrder)
    {
      created := Draft(id, draft.name, draft.adcChampion,
        OrNull(draft.allySupport), OrNull(draft.enemyAdc), OrNull(draft.enemySupport),
        OrNull(draft.enemyThreat), OrNull(draft.notes), now, now);
      drafts := drafts[id := created];
      draftOrder := draftOrder + [id];
    }

    /**
     * Applies the patch to a stored draft and stamps it updated now,
     * keeping its place in the order; an unknown id changes nothing.
     */
    method UpdateDraft(id: string, patch: DraftPatch, now: int) returns (r: Option<Draft>)
      requires Valid()
      modifies this
      ensures Valid()
      ensures r.Some? <==> id in old(drafts)
      ensures id !in old(drafts) ==> drafts == old(drafts)
      ensures id in old(drafts) ==> r == Some(Patched(old(drafts)[id], patch, now)) && drafts == old(drafts)[id := r.value]
      ensures draftOrder == old(draftOrder)
      ensures users == old(users) && userOrder == old(userOrder)
    {
      if id !in drafts {
        return None;
      }
      var existing := drafts[id];
      var updated := Patched(existing, patch, now);
      drafts := drafts[id := updated];
      r := Some(updated);
    }

    /** Removes a draft; reports whether it was there. */
    method DeleteDraft(id: string) returns (existed: bool)
      requires Valid()
      modifies this
      ensures Valid()
      ensures existed <==> id in old(drafts)
      ensures drafts == old(drafts) - {id} && draftOrder == Without(old(draftOrder), id)
      ensures users == old(users) && userOrder == old(userOrder)
    {
      existed := id in drafts;
      WithoutDistinct(draftOrder, id);
      drafts := drafts - {id};
      draftOrder := Without(draftOrder, id);
    }
  }

  /** In a sequence without repetitions, each element occurs once. */
  lemma {:induction false} DistinctCount<T>(s: seq<T>, i: nat)
    requires i < |s|
    requires forall a, b :: 0 <= a < b < |s| ==> s[a] != s[b]
    ensures multiset(s)[s[i]] == 1
  {
    var x := s[i];
    var pre, post := s[..i], s[i + 1..];
    assert s == pre + [x] + post;
    forall a | 0 <= a < |pre|
      ensures pre[a] != x
    {
      assert pre[a] == s[a];
    }
    forall a | 0 <= a < |post|
      ensures post[a] != x
    {
      assert post[a] == s[i + 1 + a];
    }
    assert multiset(s) == multiset(pre) + multiset{x} + multiset(post);
    assert x !in multiset(pre);
    assert x !in multiset(post);
  }

  /** Removing an element keeps a sequence free of repetitions. */
  lemma {:induction false} WithoutDistinct(s: seq<string>, x: string)
    requires Distinct(s)
    ensures Distinct(Without(s, x))
  {
    if s != [] {
      WithoutDistinct(s[1..], x);
      if s[0] != x {
        var rest := Without(s[1..], x);
        assert s[0] !in rest;
        var r := [s[0]] + rest;
        forall i, j | 0 <= i < j < |r|
          ensures r[i] != r[j]
        {
          if i > 0 {
            assert r[i] == rest[i - 1];
          }
          assert r[j] == rest[j - 1];
        }
      }
    }
  }

  /** A patch without keys only restamps the draft. */
  lemma PatchNothing(d: Draft, now: int)
    ensures Patched(d, NoChange, now) == d.(updatedAt := now)
  {
  }

  /**
   * A patch keeps the id and the creation time, sets exactly the supplied
   * fields, and applying it twice is applying it once.
   */
  lemma PatchFields(d: Draft, patch: DraftPatch, now: int, later: int)
    ensures var u := Patched(d, patch, now);
            && u.id == d.id && u.createdAt == d.createdAt && u.updatedAt == now
            && (patch.name.Some? ==> u.name == patch.name.value) && (patch.name.None? ==> u.name == d.name)
            && (patch.notes.Some? ==> u.notes == patch.notes.value) && (patch.notes.None? ==> u.notes == d.notes)
            && (patch.allySupport.Some? ==> u.allySupport == patch.allySupport.value)
            && (patch.allySupport.None? ==> u.allySupport == d.allySupport)
            && (patch.adcChampion.Some? ==> u.adcChampion == patch.adcChampion.value)
            && (patch.adcChampion.None? ==> u.adcChampion == d.adcChampion)
            && (patch.enemyAdc.Some? ==> u.enemyAdc == patch.enemyAdc.value)
            && (patch.enemyAdc.None? ==> u.enemyAdc == d.enemyAdc)
            && (patch.enemySupport.Some? ==> u.enemySupport == patch.enemySupport.value)
            && (patch.enemySupport.None? ==> u.enemySupport == d.enemySupport)
            && (patch.enemyThreat.Some? ==> u.enemyThreat == patch.enemyThreat.value)
            && (patch.enemyThreat.None? ==> u.enemyThreat == d.enemyThreat)
    ensures Patched(Patched(d, patch, now), patch, later) == Patched(d, patch, later)
  {
  }
}
