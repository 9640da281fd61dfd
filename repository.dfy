/**
 * The matchup repository: the raw crawled feed turned into per-champion maps
 * of `MatchupValue`, keyed by canonical (normalised) champion name.
 *
 * A missing or empty raw name is the empty string and a missing array is the
 * empty sequence; the feed's outer objects are sequences of (raw key, record)
 * pairs in `Object.entries` order.
 */
module Repository {
  import opened Wrappers
  import opened Champions
  import opened Naming
  import opened Weighting

  /** One crawled record: an opponent or ally name, a delta (maybe absent) and a game count (maybe absent). */
  datatype RawEntry = RawEntry(opponent: string, ally: string, delta: Option<real>, games: Option<int>)

  /** A bottom laner's raw record: `counters.support`, `counters.bottom`, `synergy.support`. */
  datatype RawBottom = RawBottom(countersSupport: seq<RawEntry>, countersBottom: seq<RawEntry>, synergySupport: seq<RawEntry>)

  /** A support's raw record: `counters.support`, `counters.bottom`, `synergy.bottom`. */
  datatype RawSupport = RawSupport(countersSupport: seq<RawEntry>, countersBottom: seq<RawEntry>, synergyBottom: seq<RawEntry>)

  /** `MatchupData` of a bottom laner. */
  datatype MatchupData = MatchupData(
    counters: map<string, MatchupValue>,
    synergy: map<string, MatchupValue>,
    enemyBottom: map<string, MatchupValue>)

  /** `SupportMatchupData` of a support. */
  datatype SupportMatchupData = SupportMatchupData(
    vsSupport: map<string, MatchupValue>,
    vsBottom: map<string, MatchupValue>,
    synergyBottom: map<string, MatchupValue>)

  /** `MATCHUP_DATA` and `SUPPORT_MATCHUP_DATA`, the two tables the engines read. */
  datatype Tables = Tables(bottom: map<string, MatchupData>, support: map<string, SupportMatchupData>)

  /** Which raw name a record is filed under. */
  datatype Pick =
    | OpponentFirst  // `entry.opponent || entry.ally || ""`
    | AllyFirst      // `entry.ally || entry.opponent || ""`
    | OpponentOnly   // `entry.opponent || ""`

  function RawName(e: RawEntry, pick: Pick): (s: string)
    ensures pick == OpponentOnly ==> s == e.opponent
    ensures pick == OpponentFirst ==> s == (if e.opponent != "" then e.opponent else e.ally)
    ensures pick == AllyFirst ==> s == (if e.ally != "" then e.ally else e.opponent)
  {
    match pick
    case OpponentFirst => if e.opponent != "" then e.opponent else e.ally
    case AllyFirst => if e.ally != "" then e.ally else e.opponent
    case OpponentOnly => e.opponent
  }

  /** A record is stored when its normalised name is non-empty and its delta is defined. */
  predicate Admitted(table: map<string, string>, e: RawEntry, pick: Pick) {
    Normalize(table, RawName(e, pick)) != "" && e.delta.Some?
  }

  /** The canonical name a record is filed under. */
  function NameOf(table: map<string, string>, e: RawEntry, pick: Pick): string {
    Normalize(table, RawName(e, pick))
  }

  /** `{ delta: entry.delta, games: entry.games ?? 0 }`. */
  function ValueOf(e: RawEntry): (v: MatchupValue)
    requires e.delta.Some?
    ensures v.delta == e.delta.value
    ensures e.games.None? ==> v.games == 0
    ensures e.games.Some? ==> v.games == e.games.value
  {
    MatchupValue(e.delta.value, e.games.GetOr(0))
  }

  /** How one record is filed: under a name with a value, or not at all. */
  function FileEntry(table: map<string, string>, e: RawEntry, pick: Pick): Option<(string, MatchupValue)> {
    if Admitted(table, e, pick) then Some((NameOf(table, e, pick), ValueOf(e))) else None
  }

  /** The filing of every record, in order. */
  function Filings(table: map<string, string>, es: seq<RawEntry>, pick: Pick): (fs: seq<Option<(string, MatchupValue)>>)
    ensures |fs| == |es|
    ensures forall i :: 0 <= i < |es| ==> fs[i] == FileEntry(table, es[i], pick)
  {
    if es == [] then [] else Filings(table, es[..|es| - 1], pick) + [FileEntry(table, es[|es| - 1], pick)]
  }

  /** Every filing written in order, later ones overwriting earlier ones (`m[name] = value`). */
  function Store<V>(fs: seq<Option<(string, V)>>): map<string, V>
  {
    if fs == [] then map[]
    else
      var m := Store(fs[..|fs| - 1]);
      match fs[|fs| - 1]
      case None => m
      case Some((k, v)) => m[k := v]
  }

  /** The filings under a name in `bots` written only where no entry exists yet (`!m[name]`). */
  function StoreFirst<V>(fs: seq<Option<(string, V)>>, bots: set<string>): map<string, V>
  {
    if fs == [] then map[]
    else
      var m := StoreFirst(fs[..|fs| - 1], bots);
      match fs[|fs| - 1]
      case None => m
      case Some((k, v)) => if k in bots && k !in m then m[k := v] else m
  }

  /** A record loop: every admitted record written, later records overwriting earlier ones. */
  function Records(table: map<string, string>, es: seq<RawEntry>, pick: Pick): map<string, MatchupValue> {
    Store(Filings(table, es, pick))
  }

  /**
   * The `enemyBottom` entries inferred from `counters.support`: an admitted
   * record whose name is a bottom laner, written only if no entry exists yet.
   */
  function Inferred(table: map<string, string>, es: seq<RawEntry>, bots: set<string>): map<string, MatchupValue> {
    StoreFirst(Filings(table, es, OpponentFirst), bots)
  }

  /** `BOT_LANER_NAMES`: the normalised names of the bottom laners. */
  function BotLanerNames(table: map<string, string>, botLaners: seq<Champion>): (names: set<string>)
    ensures forall i :: 0 <= i < |botLaners| ==> Normalize(table, botLaners[i].name) in names
    ensures forall n :: n in names ==> exists i :: 0 <= i < |botLaners| && Normalize(table, botLaners[i].name) == n
  {
    set i | 0 <= i < |botLaners| :: Normalize(table, botLaners[i].name)
  }

  /** The matchup data of one bottom laner. */
  function BottomMatchup(table: map<string, string>, bots: set<string>, raw: RawBottom): MatchupData {
    MatchupData(
      Records(table, raw.countersSupport, OpponentFirst),
      Records(table, raw.synergySupport, AllyFirst),
      Inferred(table, raw.countersSupport, bots) + Records(table, raw.countersBottom, OpponentFirst))
  }

  /** The matchup data of one support. */
  function SupportMatchup(table: map<string, string>, raw: RawSupport): SupportMatchupData {
    SupportMatchupData(
      Records(table, raw.countersSupport, OpponentOnly),
      Records(table, raw.countersBottom, OpponentOnly),
      Records(table, raw.synergyBottom, AllyFirst))
  }

  /** Each raw record of the feed filed under its normalised key. */
  function KeyedFilings<R>(table: map<string, string>, feed: seq<(string, R)>): (fs: seq<Option<(string, R)>>)
    ensures |fs| == |feed|
    ensures forall i :: 0 <= i < |feed| ==> fs[i] == Some((Normalize(table, feed[i].0), feed[i].1))
  {
    if feed == [] then []
    else KeyedFilings(table, feed[..|feed| - 1]) + [Some((Normalize(table, feed[|feed| - 1].0), feed[|feed| - 1].1))]
  }

  /** The raw record that ends up under each normalised key: the last one, as later keys overwrite. */
  function RawByName<R>(table: map<string, string>, feed: seq<(string, R)>): map<string, R> {
    Store(KeyedFilings(table, feed))
  }

  /** `MATCHUP_DATA`: every raw bottom record transformed under its normalised key, later keys overwriting. */
  function BottomTable(table: map<string, string>, bots: set<string>, feed: seq<(string, RawBottom)>): map<string, MatchupData> {
    var raws := RawByName(table, feed);
    map k | k in raws :: BottomMatchup(table, bots, raws[k])
  }

  /** `SUPPORT_MATCHUP_DATA`: every raw support record transformed under its normalised key. */
  function SupportTable(table: map<string, string>, feed: seq<(string, RawSupport)>): map<string, SupportMatchupData> {
    var raws := RawByName(table, feed);
    map k | k in raws :: SupportMatchup(table, raws[k])
  }

  // ---------------------------------------------------------------------------
  // The transforms, written as the loops they are.
  // ---------------------------------------------------------------------------

  /** One record loop: `for (const entry of entries) if (name && delta !== undefined) m[name] = value`. */
  method AddRecords(m0: map<string, MatchupValue>, table: map<string, string>, es: seq<RawEntry>, pick: Pick)
    returns (m: map<string, MatchupValue>)
    ensures m == m0 + Records(table, es, pick)
  {
    m := m0;
    for i := 0 to |es|
      invariant m == m0 + Records(table, es[..i], pick)
    {
      var entry := es[i];
      var name := Normalize(table, RawName(entry, pick));
      RecordsSnoc(table, es, pick, i);
      if name != "" && entry.delta.Some? {
        MapUnionUpdate(m0, Records(table, es[..i], pick), name, ValueOf(entry));
        m := m[name := ValueOf(entry)];
      }
    }
    assert es[..|es|] == es;
  }

  /**
   * The `counters.support` loop of `transformData`: every admitted record goes
   * into `counters`, and a bottom laner's first one also into `enemyBottom`.
   */
  method AddSupportCounters(table: map<string, string>, bots: set<string>, cs: seq<RawEntry>)
    returns (counters: map<string, MatchupValue>, enemyBottom: map<string, MatchupValue>)
    ensures counters == Records(table, cs, OpponentFirst)
    ensures enemyBottom == Inferred(table, cs, bots)
  {
    counters := map[];
    enemyBottom := map[];
    for i := 0 to |cs|
      invariant counters == Records(table, cs[..i], OpponentFirst)
      invariant enemyBottom == Inferred(table, cs[..i], bots)
    {
      var entry := cs[i];
      var name := Normalize(table, RawName(entry, OpponentFirst));
      RecordsSnoc(table, cs, OpponentFirst, i);
      InferredSnoc(table, cs, bots, i);
      if name != "" && entry.delta.Some? {
        counters := counters[name := ValueOf(entry)];
        if name in bots && name !in enemyBottom {
          enemyBottom := enemyBottom[name := ValueOf(entry)];
        }
      }
    }
    assert cs[..|cs|] == cs;
  }

  /** The matchup data of one bottom laner, built as `transformData`'s loop body does. */
  method BuildBottomMatchup(table: map<string, string>, bots: set<string>, raw: RawBottom) returns (matchup: MatchupData)
    ensures matchup == BottomMatchup(table, bots, raw)
  {
    var counters, enemyBottom := AddSupportCounters(table, bots, raw.countersSupport);
    enemyBottom := AddRecords(enemyBottom, table, raw.countersBottom, OpponentFirst);
    var synergy := AddRecords(map[], table, raw.synergySupport, AllyFirst);
    EmptyUnion(Records(table, raw.synergySupport, AllyFirst));
    matchup := MatchupData(counters, synergy, enemyBottom);
  }

  /** The matchup data of one support, built as `transformSupportData`'s loop body does. */
  method BuildSupportMatchup(table: map<string, string>, raw: RawSupport) returns (matchup: SupportMatchupData)
    ensures matchup == SupportMatchup(table, raw)
  {
    var vsSupport := AddRecords(map[], table, raw.countersSupport, OpponentOnly);
    var vsBottom := AddRecords(map[], table, raw.countersBottom, OpponentOnly);
    var synergyBottom := AddRecords(map[], table, raw.synergyBottom, AllyFirst);
    EmptyUnion(Records(table, raw.countersSupport, OpponentOnly));
    EmptyUnion(Records(table, raw.countersBottom, OpponentOnly));
    EmptyUnion(Records(table, raw.synergyBottom, AllyFirst));
    matchup := SupportMatchupData(vsSupport, vsBottom, synergyBottom);
  }

  /** `transformData`. */
  method TransformData(table: map<string, string>, bots: set<string>, feed: seq<(string, RawBottom)>)
    returns (result: map<string, MatchupData>)
    ensures result == BottomTable(table, bots, feed)
  {
    result := map[];
    for i := 0 to |feed|
      invariant result == BottomTable(table, bots, feed[..i])
    {
      var (adcKey, adcData) := feed[i];
      var adcName := Normalize(table, adcKey);
      var matchup := BuildBottomMatchup(table, bots, adcData);
      BottomTableSnoc(table, bots, feed, i);
      result := result[adcName := matchup];
    }
    assert feed[..|feed|] == feed;
  }

  /** `transformSupportData`. */
  method TransformSupportData(table: map<string, string>, feed: seq<(string, RawSupport)>)
    returns (result: map<string, SupportMatchupData>)
    ensures result == SupportTable(table, feed)
  {
    result := map[];
    for i := 0 to |feed|
      invariant result == SupportTable(table, feed[..i])
    {
      var (supportKey, supportData) := feed[i];
      var supportName := Normalize(table, supportKey);
      var matchup := BuildSupportMatchup(table, supportData);
      SupportTableSnoc(table, feed, i);
      result := result[supportName := matchup];
    }
    assert feed[..|feed|] == feed;
  }

  /** One more record is one more step of the record loop. */
  lemma RecordsSnoc(table: map<string, string>, es: seq<RawEntry>, pick: Pick, i: nat)
    requires i < |es|
    ensures Records(table, es[..i + 1], pick) ==
      if Admitted(table, es[i], pick) then Records(table, es[..i], pick)[NameOf(table, es[i], pick) := ValueOf(es[i])]
      else Records(table, es[..i], pick)
  {
    FilingsSnoc(table, es, pick, i);
    StoreSnoc(Filings(table, es[..i], pick), FileEntry(table, es[i], pick));
  }

  /** One more record is one more step of the inference. */
  lemma InferredSnoc(table: map<string, string>, es: seq<RawEntry>, bots: set<string>, i: nat)
    requires i < |es|
    ensures Inferred(table, es[..i + 1], bots) ==
      var m := Inferred(table, es[..i], bots);
      var name := NameOf(table, es[i], OpponentFirst);
      if Admitted(table, es[i], OpponentFirst) && name in bots && name !in m then m[name := ValueOf(es[i])] else m
  {
    FilingsSnoc(table, es, OpponentFirst, i);
    StoreFirstSnoc(Filings(table, es[..i], OpponentFirst), FileEntry(table, es[i], OpponentFirst), bots);
  }

  lemma RawByNameSnoc<R>(table: map<string, string>, feed: seq<(string, R)>, i: nat)
    requires i < |feed|
    ensures RawByName(table, feed[..i + 1]) == RawByName(table, feed[..i])[Normalize(table, feed[i].0) := feed[i].1]
  {
    assert feed[..i + 1][..i] == feed[..i];
    StoreSnoc(KeyedFilings(table, feed[..i]), Some((Normalize(table, feed[i].0), feed[i].1)));
  }

  /** One more raw bottom record is one more step of `transformData`'s outer loop. */
  lemma BottomTableSnoc(table: map<string, string>, bots: set<string>, feed: seq<(string, RawBottom)>, i: nat)
    requires i < |feed|
    ensures BottomTable(table, bots, feed[..i + 1]) ==
      BottomTable(table, bots, feed[..i])[Normalize(table, feed[i].0) := BottomMatchup(table, bots, feed[i].1)]
  {
    RawByNameSnoc(table, feed, i);
  }

  /** One more raw support record is one more step of `transformSupportData`'s outer loop. */
  lemma SupportTableSnoc(table: map<string, string>, feed: seq<(string, RawSupport)>, i: nat)
    requires i < |feed|
    ensures SupportTable(table, feed[..i + 1]) ==
      SupportTable(table, feed[..i])[Normalize(table, feed[i].0) := SupportMatchup(table, feed[i].1)]
  {
    RawByNameSnoc(table, feed, i);
  }

  lemma FilingsSnoc(table: map<string, string>, es: seq<RawEntry>, pick: Pick, i: nat)
    requires i < |es|
    ensures Filings(table, es[..i + 1], pick) == Filings(table, es[..i], pick) + [FileEntry(table, es[i], pick)]
  {
    assert es[..i + 1][..i] == es[..i];
  }

  lemma StoreSnoc<V>(fs: seq<Option<(string, V)>>, f: Option<(string, V)>)
    ensures Store(fs + [f]) == if f.None? then Store(fs) else Store(fs)[f.value.0 := f.value.1]
  {
    assert (fs + [f])[..|fs|] == fs;
  }

  lemma StoreFirstSnoc<V>(fs: seq<Option<(string, V)>>, f: Option<(string, V)>, bots: set<string>)
    ensures StoreFirst(fs + [f], bots) ==
      if f.Some? && f.value.0 in bots && f.value.0 !in StoreFirst(fs, bots)
      then StoreFirst(fs, bots)[f.value.0 := f.value.1] else StoreFirst(fs, bots)
  {
    assert (fs + [f])[..|fs|] == fs;
  }

  lemma MapUnionUpdate<K, V>(a: map<K, V>, b: map<K, V>, k: K, v: V)
    ensures (a + b)[k := v] == a + b[k := v]
  {
  }

  lemma EmptyUnion<K, V>(m: map<K, V>)
    ensures map[] + m == m
  {
  }

  // ---------------------------------------------------------------------------
  // What a store holds.
  // ---------------------------------------------------------------------------

  /** A store holds a name exactly when some filing is under it. */
  lemma {:induction false} StoreKeys<V>(fs: seq<Option<(string, V)>>, k: string)
    ensures k in Store(fs) <==> exists i :: 0 <= i < |fs| && fs[i].Some? && fs[i].value.0 == k
  {
    if fs != [] {
      var init := fs[..|fs| - 1];
      StoreKeys(init, k);
      if exists i :: 0 <= i < |fs| && fs[i].Some? && fs[i].value.0 == k {
        var i :| 0 <= i < |fs| && fs[i].Some? && fs[i].value.0 == k;
        if i < |fs| - 1 {
          assert init[i] == fs[i];
        }
      }
    }
  }

  /** The index of the last filing under a name held by the store. */
  lemma {:induction false} LastFiling<V>(fs: seq<Option<(string, V)>>, k: string) returns (i: nat)
    requires k in Store(fs)
    ensures i < |fs| && fs[i] == Some((k, Store(fs)[k]))
    ensures forall j :: i < j < |fs| ==> !(fs[j].Some? && fs[j].value.0 == k)
  {
    var init := fs[..|fs| - 1];
    var last := fs[|fs| - 1];
    if last.Some? && last.value.0 == k {
      i := |fs| - 1;
    } else {
      i := LastFiling(init, k);
      assert fs[i] == init[i];
      forall j | i < j < |fs|
        ensures !(fs[j].Some? && fs[j].value.0 == k)
      {
        if j < |init| {
          assert fs[j] == init[j];
        }
      }
    }
  }

  /** A first-wins store holds exactly the names in `bots` that some filing is under. */
  lemma {:induction false} StoreFirstKeys<V>(fs: seq<Option<(string, V)>>, bots: set<string>, k: string)
    ensures k in StoreFirst(fs, bots) <==> k in bots && exists i :: 0 <= i < |fs| && fs[i].Some? && fs[i].value.0 == k
  {
    if fs != [] {
      var init := fs[..|fs| - 1];
      StoreFirstKeys(init, bots, k);
      if exists i :: 0 <= i < |fs| && fs[i].Some? && fs[i].value.0 == k {
        var i :| 0 <= i < |fs| && fs[i].Some? && fs[i].value.0 == k;
        if i < |fs| - 1 {
          assert init[i] == fs[i];
        }
      }
    }
  }

  /** In a first-wins store the value under a name is that of the first filing under it. */
  lemma {:induction false} StoreFirstWins<V>(fs: seq<Option<(string, V)>>, bots: set<string>, i: nat)
    requires i < |fs| && fs[i].Some? && fs[i].value.0 in bots
    requires forall j :: 0 <= j < i ==> !(fs[j].Some? && fs[j].value.0 == fs[i].value.0)
    ensures fs[i].value.0 in StoreFirst(fs, bots)
    ensures StoreFirst(fs, bots)[fs[i].value.0] == fs[i].value.1
  {
    var k := fs[i].value.0;
    var init := fs[..|fs| - 1];
    if i == |fs| - 1 {
      StoreFirstKeys(init, bots, k);
    } else {
      assert init[i] == fs[i];
      forall j | 0 <= j < i
        ensures !(init[j].Some? && init[j].value.0 == k)
      {
        assert init[j] == fs[j];
      }
      StoreFirstWins(init, bots, i);
    }
  }

  // ---------------------------------------------------------------------------
  // What the transforms store.
  // ---------------------------------------------------------------------------

  /** A record loop stores a name exactly when some admitted record is filed under it. */
  lemma RecordsKeys(table: map<string, string>, es: seq<RawEntry>, pick: Pick, k: string)
    ensures k in Records(table, es, pick) <==>
      exists i :: 0 <= i < |es| && Admitted(table, es[i], pick) && NameOf(table, es[i], pick) == k
  {
    var fs := Filings(table, es, pick);
    StoreKeys(fs, k);
    if exists i :: 0 <= i < |es| && Admitted(table, es[i], pick) && NameOf(table, es[i], pick) == k {
      var i :| 0 <= i < |es| && Admitted(table, es[i], pick) && NameOf(table, es[i], pick) == k;
      assert fs[i].Some? && fs[i].value.0 == k;
    }
  }

  /** The value stored under a name is that of the last admitted record filed under it; its games default to 0. */
  lemma RecordsLastWins(table: map<string, string>, es: seq<RawEntry>, pick: Pick, k: string)
    requires k in Records(table, es, pick)
    ensures exists i :: (0 <= i < |es| && Admitted(table, es[i], pick) && NameOf(table, es[i], pick) == k
      && Records(table, es, pick)[k] == ValueOf(es[i])
      && forall j :: i < j < |es| ==> !(Admitted(table, es[j], pick) && NameOf(table, es[j], pick) == k))
  {
    var fs := Filings(table, es, pick);
    var i := LastFiling(fs, k);
    assert fs[i] == FileEntry(table, es[i], pick);
    forall j | i < j < |es|
      ensures !(Admitted(table, es[j], pick) && NameOf(table, es[j], pick) == k)
    {
      assert fs[j] == FileEntry(table, es[j], pick);
    }
  }

  /** No transform ever stores the empty name. */
  lemma NoEmptyName(table: map<string, string>, es: seq<RawEntry>, pick: Pick)
    ensures "" !in Records(table, es, pick)
  {
    RecordsKeys(table, es, pick, "");
  }

  /** An inferred entry exists exactly for the bottom laners that some admitted `counters.support` record names. */
  lemma InferredKeys(table: map<string, string>, es: seq<RawEntry>, bots: set<string>, k: string)
    ensures k in Inferred(table, es, bots) <==>
      k in bots && exists i :: 0 <= i < |es| && Admitted(table, es[i], OpponentFirst) && NameOf(table, es[i], OpponentFirst) == k
  {
    var fs := Filings(table, es, OpponentFirst);
    StoreFirstKeys(fs, bots, k);
    if exists i :: 0 <= i < |es| && Admitted(table, es[i], OpponentFirst) && NameOf(table, es[i], OpponentFirst) == k {
      var i :| 0 <= i < |es| && Admitted(table, es[i], OpponentFirst) && NameOf(table, es[i], OpponentFirst) == k;
      assert fs[i].Some? && fs[i].value.0 == k;
    }
  }

  /** The inferred value is that of the first such record: later ones never overwrite it. */
  lemma InferredFirstWins(table: map<string, string>, es: seq<RawEntry>, bots: set<string>, i: nat)
    requires i < |es| && Admitted(table, es[i], OpponentFirst) && NameOf(table, es[i], OpponentFirst) in bots
    requires forall j :: 0 <= j < i ==> !(Admitted(table, es[j], OpponentFirst) && NameOf(table, es[j], OpponentFirst) == NameOf(table, es[i], OpponentFirst))
    ensures NameOf(table, es[i], OpponentFirst) in Inferred(table, es, bots)
    ensures Inferred(table, es, bots)[NameOf(table, es[i], OpponentFirst)] == ValueOf(es[i])
  {
    var fs := Filings(table, es, OpponentFirst);
    forall j | 0 <= j < i
      ensures !(fs[j].Some? && fs[j].value.0 == fs[i].value.0)
    {
      assert fs[j] == FileEntry(table, es[j], OpponentFirst);
    }
    StoreFirstWins(fs, bots, i);
  }

  /**
   * `enemyBottom` provenance: an explicit `counters.bottom` record always wins
   * (the last one filed under the name), and an inferred value survives only
   * where no explicit record exists.
   */
  lemma EnemyBottomProvenance(table: map<string, string>, bots: set<string>, raw: RawBottom, k: string)
    ensures var eb := BottomMatchup(table, bots, raw).enemyBottom;
      && (k in eb <==> k in Inferred(table, raw.countersSupport, bots) || k in Records(table, raw.countersBottom, OpponentFirst))
      && (k in Records(table, raw.countersBottom, OpponentFirst) ==>
            eb[k] == Records(table, raw.countersBottom, OpponentFirst)[k])
      && (k !in Records(table, raw.countersBottom, OpponentFirst) && k in eb ==>
            eb[k] == Inferred(table, raw.countersSupport, bots)[k])
  {
  }

  /** Over a self-consistent table every stored name is canonical: normalising it again changes nothing. */
  lemma StoredNamesAreCanonical(table: map<string, string>, es: seq<RawEntry>, pick: Pick, k: string)
    requires SelfConsistent(table)
    requires k in Records(table, es, pick)
    ensures Normalize(table, k) == k
  {
    RecordsKeys(table, es, pick, k);
    var i :| 0 <= i < |es| && Admitted(table, es[i], pick) && NameOf(table, es[i], pick) == k;
    NormalizeIdempotent(table, RawName(es[i], pick));
  }

  /** The outer tables hold exactly the normalised raw keys, each with the raw record of the last raw key that normalises to it. */
  lemma RawByNameKeys<R>(table: map<string, string>, feed: seq<(string, R)>, k: string)
    ensures k in RawByName(table, feed) <==> exists i :: 0 <= i < |feed| && Normalize(table, feed[i].0) == k
    ensures k in RawByName(table, feed) ==>
      exists i :: (0 <= i < |feed| && Normalize(table, feed[i].0) == k && RawByName(table, feed)[k] == feed[i].1
        && forall j :: i < j < |feed| ==> Normalize(table, feed[j].0) != k)
  {
    var fs := KeyedFilings(table, feed);
    StoreKeys(fs, k);
    if exists i :: 0 <= i < |feed| && Normalize(table, feed[i].0) == k {
      var i :| 0 <= i < |feed| && Normalize(table, feed[i].0) == k;
      assert fs[i].Some? && fs[i].value.0 == k;
    }
    if k in Store(fs) {
      var i := LastFiling(fs, k);
      forall j | i < j < |feed| ensures Normalize(table, feed[j].0) != k {
        assert fs[j].Some? && fs[j].value.0 == Normalize(table, feed[j].0);
      }
    }
  }

  /** `MATCHUP_DATA` holds exactly the normalised raw keys, each with the data of the last raw record under it. */
  lemma BottomTableKeys(table: map<string, string>, bots: set<string>, feed: seq<(string, RawBottom)>, k: string)
    ensures k in BottomTable(table, bots, feed) <==> exists i :: 0 <= i < |feed| && Normalize(table, feed[i].0) == k
    ensures k in BottomTable(table, bots, feed) ==>
      exists i :: (0 <= i < |feed| && Normalize(table, feed[i].0) == k
        && BottomTable(table, bots, feed)[k] == BottomMatchup(table, bots, feed[i].1)
        && forall j :: i < j < |feed| ==> Normalize(table, feed[j].0) != k)
  {
    RawByNameKeys(table, feed, k);
  }

  /** `SUPPORT_MATCHUP_DATA` holds exactly the normalised raw keys, each with the data of the last raw record under it. */
  lemma SupportTableKeys(table: map<string, string>, feed: seq<(string, RawSupport)>, k: string)
    ensures k in SupportTable(table, feed) <==> exists i :: 0 <= i < |feed| && Normalize(table, feed[i].0) == k
    ensures k in SupportTable(table, feed) ==>
      exists i :: (0 <= i < |feed| && Normalize(table, feed[i].0) == k
        && SupportTable(table, feed)[k] == SupportMatchup(table, feed[i].1)
        && forall j :: i < j < |feed| ==> Normalize(table, feed[j].0) != k)
  {
    RawByNameKeys(table, feed, k);
  }

  /** `vsSupport` and `vsBottom` are filed under the opponent name only; `ally` is never consulted. */
  lemma SupportKeysOnOpponent(table: map<string, string>, raw: RawSupport, k: string)
    ensures k in SupportMatchup(table, raw).vsSupport <==>
      exists i :: 0 <= i < |raw.countersSupport| && raw.countersSupport[i].delta.Some?
        && raw.countersSupport[i].opponent != "" && Normalize(table, raw.countersSupport[i].opponent) == k
    ensures k in SupportMatchup(table, raw).vsBottom <==>
      exists i :: 0 <= i < |raw.countersBottom| && raw.countersBottom[i].delta.Some?
        && raw.countersBottom[i].opponent != "" && Normalize(table, raw.countersBottom[i].opponent) == k
  {
    RecordsKeys(table, raw.countersSupport, OpponentOnly, k);
    RecordsKeys(table, raw.countersBottom, OpponentOnly, k);
  }
}
