/** Laws of the tier store in src/utils/tierManager.js: the chart-key round
    trip, idempotent migration, and what `setChartTier` does to membership,
    order, counts and lookups. */
module TierLaws {
  import opened Wrappers
  import opened JsText
  import opened TierManager

  // ---------------------------------------------------------------------
  // Chart keys

  /** `parseChartKey` reads back the song id and difficulty that
      `makeChartKey` printed, for non-negative integers. */
  lemma ChartKeyRoundTrip(songId: nat, diffIndex: nat)
    ensures ParseChartKey(MakeChartKey(songId, diffIndex)) == ParsedKey(Finite(songId), Finite(diffIndex))
  {
    var a, b := IntToString(songId), IntToString(diffIndex);
    assert MakeChartKey(songId, diffIndex) == a + ['-'] + b;
    SplitAfterPlain(a, '-', b);
    assert Split(b, '-') == [b];
    ParseIntOfNat(songId);
    ParseIntOfNat(diffIndex);
  }

  /** Distinct charts have distinct keys. */
  lemma ChartKeyInjective(songId: nat, diffIndex: nat, otherId: nat, otherDiff: nat)
    requires MakeChartKey(songId, diffIndex) == MakeChartKey(otherId, otherDiff)
    ensures songId == otherId && diffIndex == otherDiff
  {
    ChartKeyRoundTrip(songId, diffIndex);
    ChartKeyRoundTrip(otherId, otherDiff);
  }

  /** The round trip needs a non-negative song id: the sign of `-1` is taken
      for the separator. */
  lemma NegativeSongIdKey()
    ensures MakeChartKey(-1, 3) == "-1-3"
    ensures ParseChartKey(MakeChartKey(-1, 3)) == ParsedKey(NaN, Finite(1))
  {
    KeyOfMinusOne();
    SplitMinusOne();
    assert ParseInt("") == NaN;
    assert ParseInt("1") == Finite(1) by {
      ParseIntOfNat(1);
      assert NatToString(1) == "1";
    }
  }

  lemma KeyOfMinusOne()
    ensures MakeChartKey(-1, 3) == "-1-3"
  {
    var id, d := IntToString(-1), IntToString(3);
    assert NatToString(1) == "1" && NatToString(3) == "3";
    assert id == "-1" && d == "3";
    assert MakeChartKey(-1, 3) == id + "-" + d;
  }

  lemma SplitMinusOne()
    ensures Split("-1-3", '-') == ["", "1", "3"]
  {
    assert "-1-3" == [] + ['-'] + "1-3";
    SplitAfterPlain([], '-', "1-3");
    SplitOneThree();
  }

  lemma SplitOneThree()
    ensures Split("1-3", '-') == ["1", "3"]
  {
    assert "1-3" == "1" + ['-'] + "3";
    SplitAfterPlain("1", '-', "3");
    assert Split("3", '-') == ["3"];
  }

  // ---------------------------------------------------------------------
  // Migration

  /** A migrated entry as it reads back after being stored as JSON: chart
      keys as strings, range entries as objects with string bounds. */
  function EmbedItem(item: Item): (r: Legacy)
    ensures item.Key? ==> r == Str(item.key)
    ensures item.Range? ==> r == Obj(item.chartKey, SStr(item.min), SStr(item.max))
  {
    match item
    case Key(k) => Str(k)
    case Range(chartKey, min, max) => Obj(chartKey, SStr(min), SStr(max))
  }

  function EmbedList(items: seq<Item>): (r: seq<Legacy>)
    ensures |r| == |items| && forall i :: 0 <= i < |r| ==> r[i] == EmbedItem(items[i])
  {
    seq(|items|, i requires 0 <= i < |items| => EmbedItem(items[i]))
  }

  /** A store as persisted tiers. */
  function Embed(store: Store): (raw: RawTiers)
    ensures raw.Keys == store.Keys
    ensures forall l :: l in raw ==> raw[l].Keys == store[l].Keys
    ensures forall l, t :: l in raw && t in raw[l] ==> raw[l][t] == EmbedList(store[l][t])
  {
    map l | l in store :: map t | t in store[l] :: EmbedList(store[l][t])
  }

  /** A canonical entry survives migration unchanged. */
  lemma MigrateCanonicalItem(tier: string, item: Item)
    requires CanonicalItem(tier, item)
    ensures MigrateItem(tier, EmbedItem(item)) == item
  {
  }

  /** Migrating a canonical store gives it back. */
  lemma MigrateCanonical(store: Store)
    requires Canonical(store)
    ensures MigrateLegacyData(Embed(store)) == store
  {
    var raw := Embed(store);
    var r := MigrateLegacyData(raw);
    assert r.Keys == store.Keys;
    forall l | l in r ensures r[l].Keys == store[l].Keys {
    }
    forall l, t | l in r && t in r[l] ensures r[l][t] == store[l][t] {
      assert RawItems(raw, l, t) == EmbedList(store[l][t]);
      forall i | 0 <= i < |r[l][t]| ensures r[l][t][i] == store[l][t][i] {
        MigrateCanonicalItem(t, store[l][t][i]);
      }
    }
    StoreExt(r, store);
  }

  /** Migration is idempotent: migrating its own output, read back from
      storage, changes nothing. */
  lemma MigrateIdempotent(raw: RawTiers)
    ensures MigrateLegacyData(Embed(MigrateLegacyData(raw))) == MigrateLegacyData(raw)
  {
    MigrateCanonical(MigrateLegacyData(raw));
  }

  /** Migrating nothing gives the default structure. */
  lemma MigrateNothing()
    ensures MigrateLegacyData(map[]) == DefaultStore()
  {
    var r, d := MigrateLegacyData(map[]), DefaultStore();
    forall l | l in r ensures r[l].Keys == d[l].Keys {
    }
    StoreExt(r, d);
  }

  /** The counts of a migrated store are the lengths of the persisted lists,
      0 for a missing one. */
  /** A migrated store has only lists the scans visit, so the laws of
      `setChartTier` apply to it. */
  lemma MigratedScanned(raw: RawTiers)
    ensures AllScanned(MigrateLegacyData(raw))
  {
    WellFormedScanned(MigrateLegacyData(raw));
  }

  lemma MigrateStats(raw: RawTiers)
    ensures var stats := GetTierStats(MigrateLegacyData(raw));
      forall l, t :: l in stats && t in stats[l] ==> stats[l][t] == |RawItems(raw, l, t)|
  {
  }

  /** Migration does not merge duplicates: a bare song id and its key
      written out both become the same chart key. */
  lemma MigrateMayDuplicate()
    ensures MigrateList("0", [Num(123), Str("123-3")]) == [Key("123-3"), Key("123-3")]
  {
    KeyOf123();
    var r := MigrateList("0", [Num(123), Str("123-3")]);
    assert r[0] == MigrateItem("0", Num(123));
    assert r[1] == MigrateItem("0", Str("123-3"));
  }

  /** A legacy entry that is a song id written as text migrates to the same
      key as the bare number: `"123"` becomes `"123-3"`. (A negative id
      written as text holds `-` and is kept as it is.) */
  lemma LegacyKeyOfIdText(n: nat)
    ensures LegacyKey(Str(NatToString(n))) == MakeChartKey(n, 3)
    ensures LegacyKey(Str(NatToString(n))) == LegacyKey(Num(n))
  {
    StringToNumberOfInt(n);
    assert IntToString(n) == NatToString(n);
  }

  lemma KeyOf123()
    ensures MakeChartKey(123, 3) == "123-3"
  {
    assert NatToString(12) == "12";
    assert IntToString(123) == "123" && IntToString(3) == "3";
  }

  // ---------------------------------------------------------------------
  // Entries of one chart in a list

  /** How many entries of a list stand for the chart. */
  function Count(tier: string, items: seq<Item>, key: string): nat
  {
    if items == [] then 0
    else (if Matches(tier, items[0], key) then 1 else 0) + Count(tier, items[1..], key)
  }

  /** The list with every entry for the chart dropped, the rest in order. */
  function Without(tier: string, items: seq<Item>, key: string): seq<Item>
  {
    if items == [] then []
    else (if Matches(tier, items[0], key) then [] else [items[0]]) + Without(tier, items[1..], key)
  }

  lemma {:induction false} CountAppend(tier: string, a: seq<Item>, b: seq<Item>, key: string)
    ensures Count(tier, a + b, key) == Count(tier, a, key) + Count(tier, b, key)
    ensures Without(tier, a + b, key) == Without(tier, a, key) + Without(tier, b, key)
    decreases |a|
  {
    if a == [] {
      assert a + b == b;
    } else {
      assert (a + b)[1..] == a[1..] + b;
      CountAppend(tier, a[1..], b, key);
      var head := if Matches(tier, a[0], key) then [] else [a[0]];
      assert head + (Without(tier, a[1..], key) + Without(tier, b, key))
        == (head + Without(tier, a[1..], key)) + Without(tier, b, key);
    }
  }

  /** A list holds the chart exactly when it counts at least one entry for it;
      dropping its entries leaves every other entry. */
  lemma {:induction false} CountHas(tier: string, items: seq<Item>, key: string)
    ensures HasEntry(tier, items, key) <==> Count(tier, items, key) > 0
    ensures |Without(tier, items, key)| == |items| - Count(tier, items, key)
    ensures !HasEntry(tier, items, key) ==> Without(tier, items, key) == items
    ensures Count(tier, Without(tier, items, key), key) == 0
    decreases |items|
  {
    if items != [] {
      CountHas(tier, items[1..], key);
      var rest := Without(tier, items[1..], key);
      if Matches(tier, items[0], key) {
        assert HasEntry(tier, items, key);
        assert Without(tier, items, key) == rest;
      } else {
        assert Count(tier, [items[0]] + rest, key) == Count(tier, rest, key) by {
          assert ([items[0]] + rest)[1..] == rest;
        }
        if HasEntry(tier, items, key) {
          var i :| 0 <= i < |items| && Matches(tier, items[i], key);
          assert items[1..][i - 1] == items[i];
        } else {
          forall i | 0 <= i < |items[1..]| ensures !Matches(tier, items[1..][i], key) {
            assert items[1..][i] == items[i + 1];
          }
          assert [items[0]] + items[1..] == items;
        }
      }
    }
  }

  /** Entries for other charts are not dropped and keep their order. */
  lemma {:induction false} WithoutKeepsOthers(tier: string, items: seq<Item>, key: string, other: string)
    requires other != key
    ensures Count(tier, Without(tier, items, key), other) == Count(tier, items, other)
    decreases |items|
  {
    if items != [] {
      WithoutKeepsOthers(tier, items[1..], key, other);
      var head := if Matches(tier, items[0], key) then [] else [items[0]];
      CountAppend(tier, head, Without(tier, items[1..], key), other);
    }
  }

  /** With at most one entry for the chart, splicing out the first one drops
      them all. */
  lemma RemoveFirstDropsAll(tier: string, items: seq<Item>, key: string)
    requires Count(tier, items, key) <= 1
    ensures RemoveFirst(tier, items, key) == Without(tier, items, key)
  {
    var found := FindEntry(tier, items, key);
    if found.None? {
      CountHas(tier, items, key);
    } else {
      RemoveFound(tier, items, key, found.value);
    }
  }

  /** Whatever the list holds, splicing out the first entry for the chart
      removes exactly one of its entries for it, and no entry for anything
      else: the other entries stay, in their order. */
  lemma RemoveFirstOne(tier: string, items: seq<Item>, key: string)
    ensures Without(tier, RemoveFirst(tier, items, key), key) == Without(tier, items, key)
    ensures Count(tier, RemoveFirst(tier, items, key), key) ==
      Count(tier, items, key) - (if HasEntry(tier, items, key) then 1 else 0)
  {
    var found := FindEntry(tier, items, key);
    if found.Some? {
      SpliceEntry(tier, items, key, found.value);
    }
  }

  /** The entries of a list that stand for the chart, in list order. */
  function Entries(tier: string, items: seq<Item>, key: string): seq<Item>
  {
    if items == [] then []
    else (if Matches(tier, items[0], key) then [items[0]] else []) + Entries(tier, items[1..], key)
  }

  lemma {:induction false} EntriesAppend(tier: string, a: seq<Item>, b: seq<Item>, key: string)
    ensures Entries(tier, a + b, key) == Entries(tier, a, key) + Entries(tier, b, key)
    decreases |a|
  {
    if a == [] {
      assert a + b == b;
    } else {
      assert (a + b)[1..] == a[1..] + b;
      EntriesAppend(tier, a[1..], b, key);
      var head := if Matches(tier, a[0], key) then [a[0]] else [];
      assert head + (Entries(tier, a[1..], key) + Entries(tier, b, key))
        == (head + Entries(tier, a[1..], key)) + Entries(tier, b, key);
    }
  }

  lemma {:induction false} EntriesNone(tier: string, items: seq<Item>, key: string)
    requires !HasEntry(tier, items, key)
    ensures Entries(tier, items, key) == []
    decreases |items|
  {
    if items != [] {
      assert !Matches(tier, items[0], key);
      assert !HasEntry(tier, items[1..], key) by {
        forall j | 0 <= j < |items| - 1 ensures !Matches(tier, items[1..][j], key) {
          assert items[1..][j] == items[j + 1];
        }
      }
      EntriesNone(tier, items[1..], key);
    }
  }

  /** The entry spliced out is the chart's first: of the entries that stand
      for the chart, the list keeps all but the first, in order. A lookup
      reads the head of these entries, so with several `range` entries for
      one chart the bounds read afterwards are those of its second entry. */
  lemma RemoveFirstHead(tier: string, items: seq<Item>, key: string)
    ensures var es := Entries(tier, items, key);
      Entries(tier, RemoveFirst(tier, items, key), key) == if es == [] then [] else es[1..]
    ensures HasEntry(tier, items, key) <==> Entries(tier, items, key) != []
    ensures HasEntry(tier, items, key) ==> items[FindEntry(tier, items, key).value] == Entries(tier, items, key)[0]
  {
    var found := FindEntry(tier, items, key);
    if found.None? {
      EntriesNone(tier, items, key);
    } else {
      var i := found.value;
      FirstSplice(tier, items, key, i);
      assert RemoveFirst(tier, items, key) == items[..i] + items[i + 1..];
    }
  }

  lemma FirstSplice(tier: string, items: seq<Item>, key: string, i: nat)
    requires i < |items| && Matches(tier, items[i], key)
    requires forall j :: 0 <= j < i ==> !Matches(tier, items[j], key)
    ensures Entries(tier, items, key) == [items[i]] + Entries(tier, items[..i] + items[i + 1..], key)
  {
    var before, x, after := items[..i], items[i], items[i + 1..];
    assert items == before + ([x] + after);
    NoEntryBefore(tier, items, key, i);
    DropHeadEntry(tier, before, x, after, key);
  }

  /** Taking out the chart's first entry takes the head off its entries. */
  lemma DropHeadEntry(tier: string, before: seq<Item>, x: Item, after: seq<Item>, key: string)
    requires !HasEntry(tier, before, key) && Matches(tier, x, key)
    ensures Entries(tier, before + ([x] + after), key) == [x] + Entries(tier, before + after, key)
  {
    EntriesNone(tier, before, key);
    EntriesAppend(tier, before, [x] + after, key);
    EntriesAppend(tier, [x], after, key);
    EntriesAppend(tier, before, after, key);
    assert [x][1..] == [];
    assert Entries(tier, [x], key) == [x];
    assert [] + Entries(tier, after, key) == Entries(tier, after, key);
  }

  /** Splicing out an entry for the chart at any position. */
  lemma SpliceEntry(tier: string, items: seq<Item>, key: string, i: nat)
    requires i < |items| && Matches(tier, items[i], key)
    ensures Without(tier, items[..i] + items[i + 1..], key) == Without(tier, items, key)
    ensures Count(tier, items[..i] + items[i + 1..], key) == Count(tier, items, key) - 1
  {
    var before, x, after := items[..i], items[i], items[i + 1..];
    assert items == before + ([x] + after);
    DropOneEntry(tier, before, x, after, key);
  }

  /** Taking out one entry for the chart takes one off its count and leaves
      the list without the chart's entries as it was. */
  lemma DropOneEntry(tier: string, before: seq<Item>, x: Item, after: seq<Item>, key: string)
    requires Matches(tier, x, key)
    ensures Without(tier, before + after, key) == Without(tier, before + ([x] + after), key)
    ensures Count(tier, before + after, key) == Count(tier, before + ([x] + after), key) - 1
  {
    SingleEntry(tier, x, key);
    CountAppend(tier, before, [x] + after, key);
    CountAppend(tier, [x], after, key);
    CountAppend(tier, before, after, key);
    assert [] + Without(tier, after, key) == Without(tier, after, key);
  }

  lemma RemoveFound(tier: string, items: seq<Item>, key: string, i: nat)
    requires Count(tier, items, key) <= 1
    requires FindEntry(tier, items, key) == Some(i)
    ensures RemoveFirst(tier, items, key) == Without(tier, items, key)
  {
    var before, x, after := items[..i], items[i], items[i + 1..];
    assert items == before + ([x] + after);
    NoEntryBefore(tier, items, key, i);
    SplitAtEntry(tier, before, x, after, key);
  }

  /** Around the only entry for the chart, dropping its entries leaves the
      two sides as they are. */
  lemma SplitAtEntry(tier: string, before: seq<Item>, x: Item, after: seq<Item>, key: string)
    requires !HasEntry(tier, before, key) && Matches(tier, x, key)
    requires Count(tier, before + ([x] + after), key) <= 1
    ensures Without(tier, before + ([x] + after), key) == before + after
  {
    SingleEntry(tier, x, key);
    CountAppend(tier, before, [x] + after, key);
    CountAppend(tier, [x], after, key);
    CountHas(tier, before, key);
    CountHas(tier, after, key);
    calc {
      Without(tier, before + ([x] + after), key);
      Without(tier, before, key) + (Without(tier, [x], key) + Without(tier, after, key));
      before + ([] + after);
      { assert [] + after == after; }
      before + after;
    }
  }

  /** The entries before the first one for the chart do not stand for it. */
  lemma NoEntryBefore(tier: string, items: seq<Item>, key: string, i: nat)
    requires i <= |items|
    requires forall j :: 0 <= j < i ==> !Matches(tier, items[j], key)
    ensures !HasEntry(tier, items[..i], key)
  {
    forall j | 0 <= j < i ensures !Matches(tier, items[..i][j], key) {
      assert items[..i][j] == items[j];
    }
  }

  lemma SingleEntry(tier: string, x: Item, key: string)
    requires Matches(tier, x, key)
    ensures Count(tier, [x], key) == 1 && Without(tier, [x], key) == []
  {
    assert [x][1..] == [];
  }
}
