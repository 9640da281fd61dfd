/**
 * The name normaliser: a lookup table from a canonical "key" spelling of every
 * champion id, champion name and curated alias to the canonical display name,
 * and the total lookup `Normalize` that falls back to its input on a miss.
 */
module Naming {
  import opened Wrappers
  import opened Champions

  /** JavaScript's `\s` class. */
  predicate JsSpace(c: char) {
    || c == ' ' || c == '\t' || c == '\n' || c == '\U{000B}' || c == '\U{000C}' || c == '\r'
    || c == '\U{00A0}' || c == '\U{1680}' || ('\U{2000}' <= c <= '\U{200A}')
    || c == '\U{2028}' || c == '\U{2029}' || c == '\U{202F}' || c == '\U{205F}'
    || c == '\U{3000}' || c == '\U{FEFF}'
  }

  /** The characters the pattern `['\s-]` removes. */
  predicate Stripped(c: char) {
    c == '\'' || c == '-' || JsSpace(c)
  }

  predicate IsUpper(c: char) {
    'A' <= c <= 'Z'
  }

  /** Lower-casing of one character (ASCII letters only). */
  function Lower(c: char): (l: char)
    ensures !IsUpper(l)
    ensures Stripped(l) <==> Stripped(c)
    ensures !IsUpper(c) ==> l == c
  {
    if IsUpper(c) then (c as int + 32) as char else c
  }

  /** A string already in key form: nothing to strip and no upper case. */
  predicate Clean(s: string) {
    forall i :: 0 <= i < |s| ==> !Stripped(s[i]) && !IsUpper(s[i])
  }

  /** What one character contributes to a key: nothing if it is stripped, else its lower-case form. */
  function KeyChar(c: char): string {
    if Stripped(c) then [] else [Lower(c)]
  }

  /** `s.toLowerCase().replace(/['\s-]/g, "")`. */
  function Key(s: string): string
  {
    if s == [] then [] else Key(s[..|s| - 1]) + KeyChar(s[|s| - 1])
  }

  lemma {:induction false} KeyAppend(a: string, b: string)
    ensures Key(a + b) == Key(a) + Key(b)
  {
    if b == [] {
      assert a + b == a;
    } else {
      assert (a + b)[..|a + b| - 1] == a + b[..|b| - 1];
      KeyAppend(a, b[..|b| - 1]);
    }
  }

  /** A string in key form is its own key. */
  lemma {:induction false} KeyOfClean(s: string)
    requires Clean(s)
    ensures Key(s) == s
  {
    if s != [] {
      var init := s[..|s| - 1];
      assert Clean(init) by {
        forall i | 0 <= i < |init| ensures !Stripped(init[i]) && !IsUpper(init[i]) {
          assert init[i] == s[i];
        }
      }
      KeyOfClean(init);
      assert s == init + [s[|s| - 1]];
    }
  }

  /** A key is in key form. */
  lemma {:induction false} KeyIsClean(s: string)
    ensures Clean(Key(s))
  {
    if s != [] {
      KeyIsClean(s[..|s| - 1]);
    }
  }

  /** Computing the key twice changes nothing. */
  lemma KeyIdempotent(s: string)
    ensures Key(Key(s)) == Key(s)
  {
    KeyIsClean(s);
    KeyOfClean(Key(s));
  }

  /** Inserting an apostrophe, a hyphen or a whitespace character does not change the key. */
  lemma KeyIgnoresPunctuation(a: string, c: char, b: string)
    requires Stripped(c)
    ensures Key(a + [c] + b) == Key(a + b)
  {
    KeyAppend(a + [c], b);
    KeyAppend(a, [c]);
    KeyAppend(a, b);
  }

  /** Changing the case of one letter does not change the key. */
  lemma KeyIgnoresCase(a: string, c: char, b: string)
    ensures Key(a + [c] + b) == Key(a + [Lower(c)] + b)
  {
    KeyAppend(a + [c], b);
    KeyAppend(a, [c]);
    KeyAppend(a + [Lower(c)], b);
    KeyAppend(a, [Lower(c)]);
  }

  /**
   * `normalizeName`: the empty string stays empty; a key found in the table with
   * a non-empty entry gives that entry; anything else is returned unchanged.
   */
  function Normalize(table: map<string, string>, name: string): (r: string)
    ensures r == "" <==> name == ""
    ensures r == name || (Key(name) in table && r == table[Key(name)])
  {
    if name == "" then ""
    else if Key(name) in table && table[Key(name)] != "" then table[Key(name)]
    else name
  }

  /** Two inputs with the same key normalise identically whenever that key is in the table. */
  lemma NormalizeByKey(table: map<string, string>, a: string, b: string)
    requires a != "" && b != "" && Key(a) == Key(b)
    requires Key(a) in table && table[Key(a)] != ""
    ensures Normalize(table, a) == Normalize(table, b) == table[Key(a)]
  {
  }

  /** On a miss the input comes back, and normalising it again is a miss too. */
  lemma NormalizeMissIdempotent(table: map<string, string>, name: string)
    requires Key(name) !in table
    ensures Normalize(table, name) == name
    ensures Normalize(table, Normalize(table, name)) == Normalize(table, name)
  {
  }

  /** Every entry's own key leads back to that entry. */
  ghost predicate SelfConsistent(table: map<string, string>) {
    forall k :: k in table && table[k] != "" ==> Key(table[k]) in table && table[Key(table[k])] == table[k]
  }

  /** Normalisation is idempotent over a self-consistent table. */
  lemma NormalizeIdempotent(table: map<string, string>, name: string)
    requires SelfConsistent(table)
    ensures Normalize(table, Normalize(table, name)) == Normalize(table, name)
  {
  }

  // ---------------------------------------------------------------------------
  // Building the table (buildNormalizationMap)

  /** The table after the loop body has run for every champion of `cs`, in order. */
  function WithChampions(table: map<string, string>, cs: seq<Champion>): map<string, string>
  {
    if cs == [] then table
    else
      var c := cs[|cs| - 1];
      WithChampions(table, cs[..|cs| - 1])[Key(c.id) := c.name][Key(c.name) := c.name]
  }

  /**
   * The curated aliases, written after all champion keys. Each multi-word name is
   * spelled as the concatenation of its words and separator, which is the same string.
   */
  const Aliases: seq<(string, string)> := [
    ("renata", "Renata Glasc"),
    ("renataglasc", "Renata Glasc"),
    ("tahmkench", "Tahm Kench"),
    ("missfortune", "Miss Fortune"),
    ("kogmaw", "Kog'Maw"),
    ("velkoz", "Vel'Koz"),
    ("kaisa", "Kai'Sa")
  ]

  function WithAliases(table: map<string, string>, al: seq<(string, string)>): map<string, string>
  {
    if al == [] then table
    else WithAliases(table, al[..|al| - 1])[al[|al| - 1].0 := al[|al| - 1].1]
  }

  /** The table `buildNormalizationMap` returns for the three champion lists. */
  function NormalizationTable(adcs: seq<Champion>, supports: seq<Champion>, botLaners: seq<Champion>): map<string, string>
  {
    WithAliases(WithChampions(WithChampions(WithChampions(map[], adcs), supports), botLaners), Aliases)
  }

  /** One champion loop of `buildNormalizationMap`. */
  method AddChampions(table0: map<string, string>, cs: seq<Champion>) returns (table: map<string, string>)
    ensures table == WithChampions(table0, cs)
  {
    table := table0;
    for i := 0 to |cs|
      invariant table == WithChampions(table0, cs[..i])
    {
      assert cs[..i + 1][..i] == cs[..i];
      var key := Key(cs[i].id);
      table := table[key := cs[i].name];
      var nameKey := Key(cs[i].name);
      table := table[nameKey := cs[i].name];
    }
    assert cs[..|cs|] == cs;
  }

  /** `buildNormalizationMap`: ADCs, then supports, then bot laners, then the aliases. */
  method BuildNormalizationMap(adcs: seq<Champion>, supports: seq<Champion>, botLaners: seq<Champion>)
    returns (table: map<string, string>)
    ensures table == NormalizationTable(adcs, supports, botLaners)
  {
    table := AddChampions(map[], adcs);
    table := AddChampions(table, supports);
    table := AddChampions(table, botLaners);
    ghost var base := table;
    for i := 0 to |Aliases|
      invariant table == WithAliases(base, Aliases[..i])
    {
      assert Aliases[..i + 1][..i] == Aliases[..i];
      table := table[Aliases[i].0 := Aliases[i].1];
    }
    assert Aliases[..|Aliases|] == Aliases;
  }

  /** Where every key of `WithChampions` comes from and what it holds. */
  lemma {:induction false} WithChampionsEntry(table: map<string, string>, cs: seq<Champion>, k: string)
    requires k in WithChampions(table, cs)
    ensures || (k in table && WithChampions(table, cs)[k] == table[k])
            || exists i :: 0 <= i < |cs| && (Key(cs[i].id) == k || Key(cs[i].name) == k)
                           && WithChampions(table, cs)[k] == cs[i].name
  {
    if cs != [] {
      var c := cs[|cs| - 1];
      var prefix := cs[..|cs| - 1];
      if k != Key(c.id) && k != Key(c.name) {
        WithChampionsEntry(table, prefix, k);
        if !(k in table && WithChampions(table, prefix)[k] == table[k]) {
          var i :| 0 <= i < |prefix| && (Key(prefix[i].id) == k || Key(prefix[i].name) == k)
                   && WithChampions(table, prefix)[k] == prefix[i].name;
          assert cs[i] == prefix[i];
        }
      } else {
        assert cs[|cs| - 1] == c;
      }
    }
  }

  /** Every champion's id key and name key is in the table built from it. */
  lemma {:induction false} WithChampionsKeys(table: map<string, string>, cs: seq<Champion>, i: nat)
    requires i < |cs|
    ensures Key(cs[i].id) in WithChampions(table, cs) && Key(cs[i].name) in WithChampions(table, cs)
  {
    if i < |cs| - 1 {
      WithChampionsKeys(table, cs[..|cs| - 1], i);
    }
  }

  /** Keys already in the base table stay in it. */
  lemma {:induction false} WithChampionsKeepsKeys(table: map<string, string>, cs: seq<Champion>, k: string)
    requires k in table
    ensures k in WithChampions(table, cs)
  {
    if cs != [] {
      WithChampionsKeepsKeys(table, cs[..|cs| - 1], k);
    }
  }

  /** A later write wins: the last alias with a given key decides its entry. */
  lemma {:induction false} WithAliasesAt(table: map<string, string>, al: seq<(string, string)>, i: nat)
    requires i < |al|
    requires forall j :: i < j < |al| ==> al[j].0 != al[i].0
    ensures al[i].0 in WithAliases(table, al) && WithAliases(table, al)[al[i].0] == al[i].1
  {
    if i < |al| - 1 {
      WithAliasesAt(table, al[..|al| - 1], i);
    }
  }

  /** A key no alias names keeps the entry of the table underneath. */
  lemma {:induction false} WithAliasesOther(table: map<string, string>, al: seq<(string, string)>, k: string)
    requires forall j :: 0 <= j < |al| ==> al[j].0 != k
    ensures k in WithAliases(table, al) <==> k in table
    ensures k in table ==> WithAliases(table, al)[k] == table[k]
  {
    if al != [] {
      WithAliasesOther(table, al[..|al| - 1], k);
    }
  }

  /** The curated aliases override any colliding champion key. */
  lemma AliasesOverride(adcs: seq<Champion>, supports: seq<Champion>, botLaners: seq<Champion>, i: nat)
    requires i < |Aliases|
    ensures Aliases[i].0 in NormalizationTable(adcs, supports, botLaners)
    ensures NormalizationTable(adcs, supports, botLaners)[Aliases[i].0] == Aliases[i].1
  {
    WithAliasesAt(WithChampions(WithChampions(WithChampions(map[], adcs), supports), botLaners), Aliases, i);
  }

  /** "Kai'Sa" written in any of its usual spellings resolves to "Kai'Sa", whatever the champion lists. */
  lemma KaisaResolves(adcs: seq<Champion>, supports: seq<Champion>, botLaners: seq<Champion>)
    ensures Normalize(NormalizationTable(adcs, supports, botLaners), "KaiSa") == "Kai'Sa"
    ensures Normalize(NormalizationTable(adcs, supports, botLaners), "kai-sa") == "Kai'Sa"
    ensures Normalize(NormalizationTable(adcs, supports, botLaners), "Kai Sa") == "Kai'Sa"
  {
    var table := NormalizationTable(adcs, supports, botLaners);
    AliasesOverride(adcs, supports, botLaners, 6);
    assert table["kaisa"] == "Kai'Sa";
    KeyOfKaisaPlain();
    KeyOfKaisaHyphen();
    KeyOfKaisaSpace();
  }

  /*
   * Keys of literal names. `Key` recurses on the last character, and Dafny
   * does not unfold such a definition on a string literal by itself, so the
   * key of each word the aliases and Kai'Sa's spellings use is reached in
   * small steps: the lower-case tail is `Clean`, the capital is lower-cased
   * (`KeyOfCapitalised`), and a two-word name is the keys of its words joined
   * (`KeyOfParts`). The lemmas from here to `KaisaSpelling` serve only
   * `KaisaResolves` and `AliasesSelfConsistent`.
   */

  lemma KeyOfKaisaPlain() ensures Key("KaiSa") == "kaisa" {
    KeyOfKaiWord();
    KeyOfSaWord();
    KeyAppend("Kai", "Sa");
    assert "Kai" + "Sa" == "KaiSa";
    assert "kai" + "sa" == "kaisa";
  }

  lemma KeyOfKaisaHyphen() ensures Key("kai-sa") == "kaisa" {
    CleanKaiSaLower();
    KeyOfClean("kai");
    KeyOfClean("sa");
    KeyOfHyphen();
    KeyOfParts("kai", "-", "sa");
    KaisaHyphenSpelling();
  }

  lemma KaisaHyphenSpelling() ensures "kai" + "-" + "sa" == "kai-sa" && "kai" + "sa" == "kaisa" {}

  lemma CleanKaiSaLower() ensures Clean("kai") && Clean("sa") {}

  lemma KeyOfKaisaSpace() ensures Key("Kai Sa") == "kaisa" {
    KeyOfSpace();
    KeyOfKaiWord();
    KeyOfSaWord();
    KeyOfParts("Kai", " ", "Sa");
    KaisaSpaceSpelling();
  }

  lemma KaisaSpaceSpelling() ensures "Kai" + " " + "Sa" == "Kai Sa" && "kai" + "sa" == "kaisa" {}

  /** `Key` of a name made of two words and a separator, from the keys of the parts. */
  lemma KeyOfParts(x: string, sep: string, y: string)
    requires Key(sep) == ""
    ensures Key(x + sep + y) == Key(x) + Key(y)
  {
    KeyAppend(x + sep, y);
    KeyAppend(x, sep);
  }

  /** The key of a capitalised word: its first letter lower-cased, the rest kept. */
  lemma KeyOfCapitalised(c: char, rest: string)
    requires IsUpper(c) && Clean(rest)
    ensures Key([c] + rest) == [Lower(c)] + rest
  {
    KeyAppend([c], rest);
    KeyOfClean(rest);
    assert [c][..0] == [];
  }

  lemma KeyOfSpace() ensures Key(" ") == "" {
    assert " "[..0] == [];
  }

  lemma KeyOfApostrophe() ensures Key("'") == "" {
    assert "'"[..0] == [];
  }

  lemma KeyOfHyphen() ensures Key("-") == "" {
    assert "-"[..0] == [];
  }

  // The keys of the words of the alias names, one capitalised word at a time.

  lemma CleanRenataTail() ensures Clean("enata") {}
  lemma KeyOfRenataWord() ensures Key("Renata") == "renata" {
    CleanRenataTail();
    KeyOfCapitalised('R', "enata");
    assert ['R'] + "enata" == "Renata";
  }

  lemma CleanGlascTail() ensures Clean("lasc") {}
  lemma KeyOfGlascWord() ensures Key("Glasc") == "glasc" {
    CleanGlascTail();
    KeyOfCapitalised('G', "lasc");
    assert ['G'] + "lasc" == "Glasc";
  }

  lemma CleanTahmTail() ensures Clean("ahm") {}
  lemma KeyOfTahmWord() ensures Key("Tahm") == "tahm" {
    CleanTahmTail();
    KeyOfCapitalised('T', "ahm");
    assert ['T'] + "ahm" == "Tahm";
  }

  lemma CleanKenchTail() ensures Clean("ench") {}
  lemma KeyOfKenchWord() ensures Key("Kench") == "kench" {
    CleanKenchTail();
    KeyOfCapitalised('K', "ench");
    assert ['K'] + "ench" == "Kench";
  }

  lemma CleanMissTail() ensures Clean("iss") {}
  lemma KeyOfMissWord() ensures Key("Miss") == "miss" {
    CleanMissTail();
    KeyOfCapitalised('M', "iss");
    assert ['M'] + "iss" == "Miss";
  }

  lemma CleanFortuneTail() ensures Clean("ortune") {}
  lemma KeyOfFortuneWord() ensures Key("Fortune") == "fortune" {
    CleanFortuneTail();
    KeyOfCapitalised('F', "ortune");
    assert ['F'] + "ortune" == "Fortune";
  }

  lemma CleanKogTail() ensures Clean("og") {}
  lemma KeyOfKogWord() ensures Key("Kog") == "kog" {
    CleanKogTail();
    KeyOfCapitalised('K', "og");
    assert ['K'] + "og" == "Kog";
  }

  lemma CleanMawTail() ensures Clean("aw") {}
  lemma KeyOfMawWord() ensures Key("Maw") == "maw" {
    CleanMawTail();
    KeyOfCapitalised('M', "aw");
    assert ['M'] + "aw" == "Maw";
  }

  lemma CleanVelTail() ensures Clean("el") {}
  lemma KeyOfVelWord() ensures Key("Vel") == "vel" {
    CleanVelTail();
    KeyOfCapitalised('V', "el");
    assert ['V'] + "el" == "Vel";
  }

  lemma CleanKozTail() ensures Clean("oz") {}
  lemma KeyOfKozWord() ensures Key("Koz") == "koz" {
    CleanKozTail();
    KeyOfCapitalised('K', "oz");
    assert ['K'] + "oz" == "Koz";
  }

  lemma CleanKaiTail() ensures Clean("ai") {}
  lemma KeyOfKaiWord() ensures Key("Kai") == "kai" {
    CleanKaiTail();
    KeyOfCapitalised('K', "ai");
    assert ['K'] + "ai" == "Kai";
  }

  lemma CleanSaTail() ensures Clean("a") {}
  lemma KeyOfSaWord() ensures Key("Sa") == "sa" {
    CleanSaTail();
    KeyOfCapitalised('S', "a");
    assert ['S'] + "a" == "Sa";
  }

  lemma KeyOfRenata() ensures Key("Renata Glasc") == "renataglasc" {
    KeyOfSpace();
    KeyOfRenataWord();
    KeyOfGlascWord();
    KeyOfParts("Renata", " ", "Glasc");
    RenataSpelling();
  }

  lemma RenataSpelling() ensures "Renata" + " " + "Glasc" == "Renata Glasc" && "renata" + "glasc" == "renataglasc" {}

  lemma KeyOfTahm() ensures Key("Tahm Kench") == "tahmkench" {
    KeyOfSpace();
    KeyOfTahmWord();
    KeyOfKenchWord();
    KeyOfParts("Tahm", " ", "Kench");
    TahmSpelling();
  }

  lemma TahmSpelling() ensures "Tahm" + " " + "Kench" == "Tahm Kench" && "tahm" + "kench" == "tahmkench" {}

  lemma KeyOfMissFortune() ensures Key("Miss Fortune") == "missfortune" {
    KeyOfSpace();
    KeyOfMissWord();
    KeyOfFortuneWord();
    KeyOfParts("Miss", " ", "Fortune");
    MissFortuneSpelling();
  }

  lemma MissFortuneSpelling() ensures "Miss" + " " + "Fortune" == "Miss Fortune" && "miss" + "fortune" == "missfortune" {}

  lemma KeyOfKogMaw() ensures Key("Kog'Maw") == "kogmaw" {
    KeyOfApostrophe();
    KeyOfKogWord();
    KeyOfMawWord();
    KeyOfParts("Kog", "'", "Maw");
    KogMawSpelling();
  }

  lemma KogMawSpelling() ensures "Kog" + "'" + "Maw" == "Kog'Maw" && "kog" + "maw" == "kogmaw" {}

  lemma KeyOfVelKoz() ensures Key("Vel'Koz") == "velkoz" {
    KeyOfApostrophe();
    KeyOfVelWord();
    KeyOfKozWord();
    KeyOfParts("Vel", "'", "Koz");
    VelKozSpelling();
  }

  lemma VelKozSpelling() ensures "Vel" + "'" + "Koz" == "Vel'Koz" && "vel" + "koz" == "velkoz" {}

  lemma KeyOfKaisa() ensures Key("Kai'Sa") == "kaisa" {
    KeyOfApostrophe();
    KeyOfKaiWord();
    KeyOfSaWord();
    KeyOfParts("Kai", "'", "Sa");
    KaisaSpelling();
  }

  lemma KaisaSpelling() ensures "Kai" + "'" + "Sa" == "Kai'Sa" && "kai" + "sa" == "kaisa" {}

  /** Each alias's canonical name keys back to an alias holding the same name. */
  lemma AliasesSelfConsistent(i: nat)
    requires i < |Aliases|
    ensures exists j :: 0 <= j < |Aliases| && Aliases[j].0 == Key(Aliases[i].1) && Aliases[j].1 == Aliases[i].1
  {
    var j: nat := if i == 0 then 1 else i;
    assert Aliases[j].1 == Aliases[i].1;
    if i == 0 || i == 1 {
      KeyOfRenata();
    } else if i == 2 {
      KeyOfTahm();
    } else if i == 3 {
      KeyOfMissFortune();
    } else if i == 4 {
      KeyOfKogMaw();
    } else if i == 5 {
      KeyOfVelKoz();
    } else {
      KeyOfKaisa();
    }
    assert Aliases[j].0 == Key(Aliases[i].1);
  }

  /** No two curated aliases share a key. */
  lemma AliasKeysDistinct()
    ensures forall i, j :: 0 <= i < j < |Aliases| ==> Aliases[i].0 != Aliases[j].0
  {
  }

  /** Running the champion loop over two lists is running it over their concatenation. */
  lemma {:induction false} WithChampionsConcat(table: map<string, string>, a: seq<Champion>, b: seq<Champion>)
    ensures WithChampions(WithChampions(table, a), b) == WithChampions(table, a + b)
  {
    if b == [] {
      assert a + b == a;
    } else {
      assert (a + b)[..|a + b| - 1] == a + b[..|b| - 1];
      assert (a + b)[|a + b| - 1] == b[|b| - 1];
      WithChampionsConcat(table, a, b[..|b| - 1]);
    }
  }

  /**
   * The champion lists never give two different names the same key, and an alias
   * that shares a champion's name key names that champion.
   */
  ghost predicate Unambiguous(all: seq<Champion>) {
    && (forall i, j :: 0 <= i < |all| && 0 <= j < |all|
          && (Key(all[j].id) == Key(all[i].name) || Key(all[j].name) == Key(all[i].name))
          ==> all[j].name == all[i].name)
    && (forall i, a :: 0 <= i < |all| && 0 <= a < |Aliases| && Aliases[a].0 == Key(all[i].name)
          ==> Aliases[a].1 == all[i].name)
  }

  /** Over unambiguous champion lists the built table is self-consistent, so `Normalize` is idempotent on it. */
  lemma TableSelfConsistent(adcs: seq<Champion>, supports: seq<Champion>, botLaners: seq<Champion>)
    requires Unambiguous(adcs + supports + botLaners)
    ensures SelfConsistent(NormalizationTable(adcs, supports, botLaners))
  {
    var all := adcs + supports + botLaners;
    WithChampionsConcat(map[], adcs, supports);
    WithChampionsConcat(map[], adcs + supports, botLaners);
    var w := WithChampions(map[], all);
    var t := NormalizationTable(adcs, supports, botLaners);
    assert t == WithAliases(w, Aliases);
    AliasKeysDistinct();
    forall k | k in t && t[k] != ""
      ensures Key(t[k]) in t && t[Key(t[k])] == t[k]
    {
      if a :| 0 <= a < |Aliases| && Aliases[a].0 == k {
        WithAliasesAt(w, Aliases, a);
        AliasesSelfConsistent(a);
        var b :| 0 <= b < |Aliases| && Aliases[b].0 == Key(Aliases[a].1) && Aliases[b].1 == Aliases[a].1;
        WithAliasesAt(w, Aliases, b);
      } else {
        WithAliasesOther(w, Aliases, k);
        WithChampionsEntry(map[], all, k);
        var i :| 0 <= i < |all| && (Key(all[i].id) == k || Key(all[i].name) == k) && w[k] == all[i].name;
        var v := all[i].name;
        if b :| 0 <= b < |Aliases| && Aliases[b].0 == Key(v) {
          WithAliasesAt(w, Aliases, b);
        } else {
          WithChampionsKeys(map[], all, i);
          WithAliasesOther(w, Aliases, Key(v));
          WithChampionsEntry(map[], all, Key(v));
        }
      }
    }
  }
}
