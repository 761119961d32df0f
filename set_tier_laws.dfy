/** What `setChartTier` (src/utils/tierManager.js) does to a store in the
    schema whose lists hold the chart at most once each: the chart ends up in
    at most one list, every other entry keeps its place, a second identical
    call changes nothing, and lookups of other charts are unaffected. */
module SetTierLaws {
  import opened Wrappers
  import opened JsText
  import opened TierManager
  import opened TierLaws

  /** No list holds the chart more than once. */
  ghost predicate NoDuplicates(store: Store, key: string)
  {
    forall l, t :: l in store && t in store[l] ==> Count(t, store[l][t], key) <= 1
  }

  /** The store with every entry for the chart dropped. */
  function Purge(store: Store, key: string): (r: Store)
    ensures r.Keys == store.Keys
    ensures forall l :: l in r ==> r[l].Keys == store[l].Keys
    ensures forall l, t :: l in r && t in r[l] ==> r[l][t] == Without(t, store[l][t], key)
  {
    map l | l in store :: map t | t in store[l] :: Without(t, store[l][t], key)
  }

  /** Whether `setChartTier` inserts the chart: level and tier are truthy and
      name an existing list, and a range entry has both bounds. */
  predicate Inserts(store: Store, level: Option<string>, tier: Option<string>, rangeInfo: Option<RangeInfo>)
  {
    && Truthy(level) && Truthy(tier)
    && level.value in store && tier.value in store[level.value]
    && (tier.value == "range" ==> RangeComplete(rangeInfo))
  }

  /** In the schema, with no duplicates, the removal pass drops every entry
      for the chart from a list. */
  lemma RemovedList(store: Store, key: string, l: string, t: string)
    requires AllScanned(store) && NoDuplicates(store, key)
    requires l in store && t in store[l]
    ensures RemoveChart(store, key)[l][t] == Without(t, store[l][t], key)
  {
    RemoveFirstDropsAll(t, store[l][t], key);
  }

  lemma RemoveChartPurges(store: Store, key: string)
    requires AllScanned(store) && NoDuplicates(store, key)
    ensures RemoveChart(store, key) == Purge(store, key)
  {
    var a, b := RemoveChart(store, key), Purge(store, key);
    forall l, t | l in a && t in a[l] ensures a[l][t] == b[l][t] {
      RemovedList(store, key, l, t);
    }
    StoreExt(a, b);
  }

  /** What one list becomes: the chart's entries dropped and, in the target
      list of a call that inserts, the new entry appended. */
  function SetList(store: Store, key: string, level: Option<string>, tier: Option<string>, rangeInfo: Option<RangeInfo>, l: string, t: string): seq<Item>
    requires l in store && t in store[l]
  {
    if Inserts(store, level, tier, rangeInfo) && l == level.value && t == tier.value
    then Without(t, store[l][t], key) + [NewEntry(key, t, rangeInfo)]
    else Without(t, store[l][t], key)
  }

  /** After removal, the insertion pass pushes exactly when `Inserts` says. */
  lemma PushesAfterRemoval(store: Store, key: string, level: Option<string>, tier: Option<string>, rangeInfo: Option<RangeInfo>)
    requires AllScanned(store) && NoDuplicates(store, key)
    ensures Pushes(RemoveChart(store, key), key, level, tier, rangeInfo) <==> Inserts(store, level, tier, rangeInfo)
  {
    if Truthy(level) && Truthy(tier) && level.value in store && tier.value in store[level.value] {
      var l, t := level.value, tier.value;
      RemovedList(store, key, l, t);
      CountHas(t, store[l][t], key);
      CountHas(t, Without(t, store[l][t], key), key);
    }
  }

  /** The whole effect of `setChartTier`: every entry for the chart is
      dropped and, when it inserts, the new entry goes at the end of the
      target list; no list is added or removed. */
  lemma SetTierShape(store: Store, key: string, level: Option<string>, tier: Option<string>, rangeInfo: Option<RangeInfo>)
    requires AllScanned(store) && NoDuplicates(store, key)
    ensures var after := SetTier(store, key, level, tier, rangeInfo);
      && after.Keys == store.Keys
      && (forall l :: l in after ==> after[l].Keys == store[l].Keys)
      && forall l, t :: l in after && t in after[l] ==>
           after[l][t] == SetList(store, key, level, tier, rangeInfo, l, t)
  {
    var after := SetTier(store, key, level, tier, rangeInfo);
    forall l, t | l in after && t in after[l]
      ensures after[l][t] == SetList(store, key, level, tier, rangeInfo, l, t)
    {
      SetListOf(store, key, level, tier, rangeInfo, l, t);
    }
  }

  lemma SetListOf(store: Store, key: string, level: Option<string>, tier: Option<string>, rangeInfo: Option<RangeInfo>, l: string, t: string)
    requires AllScanned(store) && NoDuplicates(store, key)
    requires l in store && t in store[l]
    ensures SetTier(store, key, level, tier, rangeInfo)[l][t] == SetList(store, key, level, tier, rangeInfo, l, t)
  {
    var r := RemoveChart(store, key);
    RemovedList(store, key, l, t);
    PushesAfterRemoval(store, key, level, tier, rangeInfo);
    var after := AddChart(r, key, level, tier, rangeInfo);
    assert SetTier(store, key, level, tier, rangeInfo) == after;
    if Inserts(store, level, tier, rangeInfo) && l == level.value && t == tier.value {
      assert after[l][t] == r[l][t] + [NewEntry(key, t, rangeInfo)];
    } else {
      assert !(Pushes(r, key, level, tier, rangeInfo) && l == level.value && t == tier.value);
    }
  }

  /** The entry pushed stands for the chart in its tier, and for no other. */
  lemma NewEntryMatches(key: string, tier: string, rangeInfo: Option<RangeInfo>)
    requires tier == "range" ==> RangeComplete(rangeInfo)
    ensures Matches(tier, NewEntry(key, tier, rangeInfo), key)
    ensures forall other :: other != key ==> !Matches(tier, NewEntry(key, tier, rangeInfo), other)
  {
  }

  /** What happens to one list holding the chart at most once: its entries
      for the chart are dropped and, when `push`, the entry `n` for it is
      appended. */
  lemma ListLaws(t: string, items: seq<Item>, key: string, push: bool, n: Item)
    requires Count(t, items, key) <= 1
    requires push ==> Matches(t, n, key)
    ensures var out := if push then Without(t, items, key) + [n] else Without(t, items, key);
      && (HasEntry(t, out, key) <==> push)
      && Count(t, out, key) <= 1
      && Without(t, out, key) == Without(t, items, key)
      && |out| == |items| - (if HasEntry(t, items, key) then 1 else 0) + (if push then 1 else 0)
  {
    var w := Without(t, items, key);
    CountHas(t, items, key);
    CountHas(t, w, key);
    if push {
      CountAppend(t, w, [n], key);
      SingleEntry(t, n, key);
      CountHas(t, w + [n], key);
      assert w + [] == w;
    }
  }

  /** Whether the call pushes into list `(l, t)`. */
  predicate PushesInto(store: Store, level: Option<string>, tier: Option<string>, rangeInfo: Option<RangeInfo>, l: string, t: string)
  {
    Inserts(store, level, tier, rangeInfo) && l == level.value && t == tier.value
  }

  /** `ListLaws` for one list of the store after the call. */
  lemma ListAfterSet(store: Store, key: string, level: Option<string>, tier: Option<string>, rangeInfo: Option<RangeInfo>, l: string, t: string)
    requires AllScanned(store) && NoDuplicates(store, key)
    requires l in store && t in store[l]
    ensures var after, push := SetTier(store, key, level, tier, rangeInfo), PushesInto(store, level, tier, rangeInfo, l, t);
      && l in after && t in after[l]
      && (HasEntry(t, after[l][t], key) <==> push)
      && Count(t, after[l][t], key) <= 1
      && Without(t, after[l][t], key) == Without(t, store[l][t], key)
      && |after[l][t]| == |store[l][t]| - (if HasEntry(t, store[l][t], key) then 1 else 0) + (if push then 1 else 0)
  {
    var push := PushesInto(store, level, tier, rangeInfo, l, t);
    SetListOf(store, key, level, tier, rangeInfo, l, t);
    if push {
      NewEntryMatches(key, t, rangeInfo);
    }
    ListLaws(t, store[l][t], key, push, NewEntry(key, t, rangeInfo));
  }

  /** After the call the chart is in exactly the target list when the call
      inserts, and in no list otherwise. */
  lemma SetTierPlacement(store: Store, key: string, level: Option<string>, tier: Option<string>, rangeInfo: Option<RangeInfo>)
    requires AllScanned(store) && NoDuplicates(store, key)
    ensures var after := SetTier(store, key, level, tier, rangeInfo);
      forall l, t :: Member(after, l, t, key) <==>
        Inserts(store, level, tier, rangeInfo) && l == level.value && t == tier.value
  {
    var after := SetTier(store, key, level, tier, rangeInfo);
    forall l, t | l in store && t in store[l]
      ensures HasEntry(t, after[l][t], key) <==> PushesInto(store, level, tier, rangeInfo, l, t)
    {
      ListAfterSet(store, key, level, tier, rangeInfo, l, t);
    }
  }

  /** After the call the store still has only scanned lists and holds the
      chart at most once in each. */
  lemma SetTierNoDuplicates(store: Store, key: string, level: Option<string>, tier: Option<string>, rangeInfo: Option<RangeInfo>)
    requires AllScanned(store) && NoDuplicates(store, key)
    ensures var after := SetTier(store, key, level, tier, rangeInfo);
      AllScanned(after) && NoDuplicates(after, key)
  {
    var after := SetTier(store, key, level, tier, rangeInfo);
    forall l, t | l in store && t in store[l] ensures Count(t, after[l][t], key) <= 1 {
      ListAfterSet(store, key, level, tier, rangeInfo, l, t);
    }
  }

  /** The chart is in at most one list of the whole store. */
  ghost predicate InOneList(store: Store, key: string)
  {
    forall l1, t1, l2, t2 :: Member(store, l1, t1, key) && Member(store, l2, t2, key) ==> l1 == l2 && t1 == t2
  }

  /** The store-wide invariant: every chart is in at most one list, and at
      most once there. */
  ghost predicate OneTierEach(store: Store)
  {
    forall key :: NoDuplicates(store, key) && InOneList(store, key)
  }

  /** The default structure starts with the invariant. */
  lemma DefaultOneTierEach()
    ensures AllScanned(DefaultStore()) && OneTierEach(DefaultStore())
  {
    var d := DefaultStore();
    WellFormedScanned(d);
    forall key ensures NoDuplicates(d, key) && InOneList(d, key) {
      forall l, t | l in d && t in d[l] ensures Count(t, d[l][t], key) == 0 && !HasEntry(t, d[l][t], key) {
        assert d[l][t] == [];
      }
    }
  }

  /** The call leaves the entries of every other chart in each list as they
      were in number. */
  lemma OtherCountAfterSet(store: Store, key: string, level: Option<string>, tier: Option<string>, rangeInfo: Option<RangeInfo>,
                           l: string, t: string, other: string)
    requires AllScanned(store) && NoDuplicates(store, key) && other != key
    requires l in store && t in store[l]
    ensures var after := SetTier(store, key, level, tier, rangeInfo);
      && l in after && t in after[l]
      && Count(t, after[l][t], other) == Count(t, store[l][t], other)
      && (HasEntry(t, after[l][t], other) <==> HasEntry(t, store[l][t], other))
  {
    var after := SetTier(store, key, level, tier, rangeInfo);
    var w := Without(t, store[l][t], key);
    SetListOf(store, key, level, tier, rangeInfo, l, t);
    WithoutKeepsOthers(t, store[l][t], key, other);
    if PushesInto(store, level, tier, rangeInfo, l, t) {
      var n := NewEntry(key, t, rangeInfo);
      NewEntryMatches(key, t, rangeInfo);
      CountAppend(t, w, [n], other);
      assert [n][1..] == [];
    }
    CountHas(t, store[l][t], other);
    CountHas(t, after[l][t], other);
  }

  /** Every call of `setChartTier` keeps the store-wide invariant, so any
      sequence of calls on a store that starts with it keeps every chart in
      at most one list. */
  lemma SetTierKeepsOneTier(store: Store, key: string, level: Option<string>, tier: Option<string>, rangeInfo: Option<RangeInfo>)
    requires AllScanned(store) && OneTierEach(store)
    ensures var after := SetTier(store, key, level, tier, rangeInfo);
      AllScanned(after) && OneTierEach(after)
  {
    var after := SetTier(store, key, level, tier, rangeInfo);
    assert NoDuplicates(store, key);
    SetTierNoDuplicates(store, key, level, tier, rangeInfo);
    SetTierPlacement(store, key, level, tier, rangeInfo);
    SetTierKeepsOrder(store, key, level, tier, rangeInfo);
    forall other | other != key ensures NoDuplicates(after, other) && InOneList(after, other) {
      assert NoDuplicates(store, other) && InOneList(store, other);
      forall l, t | l in after && t in after[l]
        ensures Count(t, after[l][t], other) == Count(t, store[l][t], other)
        ensures Member(after, l, t, other) <==> Member(store, l, t, other)
      {
        OtherCountAfterSet(store, key, level, tier, rangeInfo, l, t, other);
      }
    }
  }

  /** Dropping the chart's entries from the list after the call leaves
      exactly what dropping them from the list before leaves: all other
      entries keep their relative order. */
  lemma SetTierKeepsOrder(store: Store, key: string, level: Option<string>, tier: Option<string>, rangeInfo: Option<RangeInfo>)
    requires AllScanned(store) && NoDuplicates(store, key)
    ensures var after := SetTier(store, key, level, tier, rangeInfo);
      && after.Keys == store.Keys
      && (forall l :: l in store ==> after[l].Keys == store[l].Keys)
      && forall l, t :: l in store && t in store[l] ==>
           Without(t, after[l][t], key) == Without(t, store[l][t], key)
  {
    var after := SetTier(store, key, level, tier, rangeInfo);
    forall l, t | l in store && t in store[l]
      ensures Without(t, after[l][t], key) == Without(t, store[l][t], key)
    {
      ListAfterSet(store, key, level, tier, rangeInfo, l, t);
    }
  }

  /** Calling `setChartTier` twice with the same arguments leaves the store
      as one call does. */
  lemma SetTierIdempotent(store: Store, key: string, level: Option<string>, tier: Option<string>, rangeInfo: Option<RangeInfo>)
    requires AllScanned(store) && NoDuplicates(store, key)
    ensures var once := SetTier(store, key, level, tier, rangeInfo);
      SetTier(once, key, level, tier, rangeInfo) == once
  {
    var once := SetTier(store, key, level, tier, rangeInfo);
    var twice := SetTier(once, key, level, tier, rangeInfo);
    SetTierNoDuplicates(store, key, level, tier, rangeInfo);
    assert Inserts(once, level, tier, rangeInfo) == Inserts(store, level, tier, rangeInfo);
    forall l, t | l in once && t in once[l] ensures twice[l][t] == once[l][t] {
      SetListTwice(store, key, level, tier, rangeInfo, l, t);
    }
    StoreExt(twice, once);
  }

  /** One list of the store, set twice: as after the first call. */
  lemma SetListTwice(store: Store, key: string, level: Option<string>, tier: Option<string>, rangeInfo: Option<RangeInfo>,
                     l: string, t: string)
    requires AllScanned(store) && NoDuplicates(store, key)
    requires Inserts(SetTier(store, key, level, tier, rangeInfo), level, tier, rangeInfo) == Inserts(store, level, tier, rangeInfo)
    requires AllScanned(SetTier(store, key, level, tier, rangeInfo)) && NoDuplicates(SetTier(store, key, level, tier, rangeInfo), key)
    requires l in store && t in store[l]
    ensures var once := SetTier(store, key, level, tier, rangeInfo);
      SetTier(once, key, level, tier, rangeInfo)[l][t] == once[l][t]
  {
    ListAfterSet(store, key, level, tier, rangeInfo, l, t);
    SetListOf(store, key, level, tier, rangeInfo, l, t);
    SetListOf(SetTier(store, key, level, tier, rangeInfo), key, level, tier, rangeInfo, l, t);
  }

  /** The counts after the call: the list that held the chart has one entry
      fewer, the target list one more. */
  lemma SetTierStats(store: Store, key: string, level: Option<string>, tier: Option<string>, rangeInfo: Option<RangeInfo>)
    requires AllScanned(store) && NoDuplicates(store, key)
    ensures var after, stats := SetTier(store, key, level, tier, rangeInfo), GetTierStats(store);
      var stats' := GetTierStats(after);
      forall l, t :: l in stats && t in stats[l] ==>
        stats'[l][t] == stats[l][t]
          - (if Member(store, l, t, key) then 1 else 0)
          + (if PushesInto(store, level, tier, rangeInfo, l, t) then 1 else 0)
  {
    var after := SetTier(store, key, level, tier, rangeInfo);
    forall l, t | l in store && t in store[l]
      ensures |after[l][t]| == |store[l][t]|
          - (if HasEntry(t, store[l][t], key) then 1 else 0)
          + (if PushesInto(store, level, tier, rangeInfo, l, t) then 1 else 0)
    {
      ListAfterSet(store, key, level, tier, rangeInfo, l, t);
    }
  }

  /** Reading the chart back after the call reports the target list (with
      the bounds just written, for `range`), or nothing when the call only
      removed it. */
  lemma GetAfterSet(songId: int, diffIndex: int, store: Store, level: Option<string>, tier: Option<string>, rangeInfo: Option<RangeInfo>)
    requires AllScanned(store) && NoDuplicates(store, MakeChartKey(songId, diffIndex))
    ensures var after := SetTier(store, MakeChartKey(songId, diffIndex), level, tier, rangeInfo);
      GetChartTier(songId, diffIndex, after) ==
        if !Inserts(store, level, tier, rangeInfo) then None
        else if tier.value == "range" then
          Some(TierInfo(level.value, tier.value, Some(ScalarText(rangeInfo.value.min)), Some(ScalarText(rangeInfo.value.max))))
        else Some(TierInfo(level.value, tier.value, None, None))
  {
    var key := MakeChartKey(songId, diffIndex);
    var after := SetTier(store, key, level, tier, rangeInfo);
    SetTierPlacement(store, key, level, tier, rangeInfo);
    var r := GetChartTier(songId, diffIndex, after);
    if Inserts(store, level, tier, rangeInfo) {
      var l, t := level.value, tier.value;
      assert Member(after, l, t, key);
      assert Scanned(l, t);
      assert r.Some?;
      assert r.value.level == l && r.value.tier == t;
      if t == "range" {
        SetListOf(store, key, level, tier, rangeInfo, l, t);
        CountHas(t, store[l][t], key);
        CountHas(t, Without(t, store[l][t], key), key);
        NewEntryMatches(key, t, rangeInfo);
        LastEntryFound(t, Without(t, store[l][t], key), NewEntry(key, t, rangeInfo), key);
      }
    }
  }

  /** In a list with no entry for the chart, the one appended is the first. */
  lemma LastEntryFound(tier: string, items: seq<Item>, x: Item, key: string)
    requires !HasEntry(tier, items, key) && Matches(tier, x, key)
    ensures FindEntry(tier, items + [x], key) == Some(|items|)
  {
    var s := items + [x];
    assert Matches(tier, s[|items|], key);
    forall j | 0 <= j < |items| ensures !Matches(tier, s[j], key) {
      assert s[j] == items[j];
    }
  }

  // ---------------------------------------------------------------------
  // Other charts

  /** The entry a lookup of the chart reads in a list that holds it. */
  function FirstEntry(tier: string, items: seq<Item>, key: string): Item
    requires HasEntry(tier, items, key)
  {
    items[FindEntry(tier, items, key).value]
  }

  /** An entry that stands for one chart stands for no other. */
  lemma MatchesOne(tier: string, item: Item, key: string, other: string)
    requires Matches(tier, item, other) && other != key
    ensures !Matches(tier, item, key)
  {
  }

  /** The first position whose entry stands for the chart is unique. */
  lemma FirstIndexUnique(tier: string, items: seq<Item>, key: string, i: nat)
    requires i < |items| && Matches(tier, items[i], key)
    requires forall j :: 0 <= j < i ==> !Matches(tier, items[j], key)
    ensures FindEntry(tier, items, key) == Some(i)
  {
    var k := FindEntry(tier, items, key).value;
    assert !(k < i);
    assert !(i < k);
  }

  /** Appending an entry for another chart changes no lookup of this one. */
  lemma FindEntryAppend(tier: string, items: seq<Item>, n: Item, key: string)
    requires !Matches(tier, n, key)
    ensures HasEntry(tier, items + [n], key) <==> HasEntry(tier, items, key)
    ensures HasEntry(tier, items, key) ==> FirstEntry(tier, items + [n], key) == FirstEntry(tier, items, key)
  {
    var s := items + [n];
    if HasEntry(tier, items, key) {
      var i := FindEntry(tier, items, key).value;
      assert s[i] == items[i];
      forall j | 0 <= j < i ensures !Matches(tier, s[j], key) {
        assert s[j] == items[j];
      }
      FirstIndexUnique(tier, s, key, i);
    } else {
      forall j | 0 <= j < |s| ensures !Matches(tier, s[j], key) {
        if j < |items| {
          assert s[j] == items[j];
        }
      }
    }
  }

  /** Dropping one chart's entries keeps the first entry of every other. */
  lemma {:induction false} WithoutKeepsFirst(tier: string, items: seq<Item>, key: string, other: string)
    requires other != key
    ensures HasEntry(tier, Without(tier, items, key), other) <==> HasEntry(tier, items, other)
    ensures HasEntry(tier, items, other) ==>
      FirstEntry(tier, Without(tier, items, key), other) == FirstEntry(tier, items, other)
    decreases |items|
  {
    WithoutKeepsOthers(tier, items, key, other);
    CountHas(tier, items, other);
    CountHas(tier, Without(tier, items, key), other);
    if items != [] && HasEntry(tier, items, other) {
      var h, rest := items[0], items[1..];
      var w := Without(tier, items, key);
      if Matches(tier, h, other) {
        MatchesOne(tier, h, key, other);
        assert w[0] == h;
        FirstIndexUnique(tier, w, other, 0);
        FirstIndexUnique(tier, items, other, 0);
      } else {
        WithoutKeepsFirst(tier, rest, key, other);
        assert items == [h] + rest;
        FirstAfterPrefix(tier, [h], rest, other);
        var head := if Matches(tier, h, key) then [] else [h];
        assert w == head + Without(tier, rest, key);
        FirstAfterPrefix(tier, head, Without(tier, rest, key), other);
      }
    }
  }

  /** Entries that do not stand for the chart, put in front, do not change
      the entry its lookup reads. */
  lemma FirstAfterPrefix(tier: string, pre: seq<Item>, s: seq<Item>, key: string)
    requires forall j :: 0 <= j < |pre| ==> !Matches(tier, pre[j], key)
    requires HasEntry(tier, s, key)
    ensures HasEntry(tier, pre + s, key) && FirstEntry(tier, pre + s, key) == FirstEntry(tier, s, key)
  {
    var t := pre + s;
    var k := FindEntry(tier, s, key).value;
    assert t[|pre| + k] == s[k];
    forall j | 0 <= j < |pre| + k ensures !Matches(tier, t[j], key) {
      if j >= |pre| {
        assert t[j] == s[j - |pre|];
      } else {
        assert t[j] == pre[j];
      }
    }
    FirstIndexUnique(tier, t, key, |pre| + k);
  }

  /** One list after the call, as another chart's lookup sees it. */
  lemma OtherAfterSet(store: Store, key: string, level: Option<string>, tier: Option<string>, rangeInfo: Option<RangeInfo>, l: string, t: string, other: string)
    requires AllScanned(store) && NoDuplicates(store, key) && other != key
    requires l in store && t in store[l]
    ensures var after := SetTier(store, key, level, tier, rangeInfo);
      && l in after && t in after[l]
      && (HasEntry(t, after[l][t], other) <==> HasEntry(t, store[l][t], other))
      && (HasEntry(t, store[l][t], other) ==> FirstEntry(t, after[l][t], other) == FirstEntry(t, store[l][t], other))
  {
    SetListOf(store, key, level, tier, rangeInfo, l, t);
    WithoutKeepsFirst(t, store[l][t], key, other);
    if PushesInto(store, level, tier, rangeInfo, l, t) {
      NewEntryMatches(key, t, rangeInfo);
      FindEntryAppend(t, Without(t, store[l][t], key), NewEntry(key, t, rangeInfo), other);
    }
  }

  /** Lookups over stores whose lists agree on a chart agree. */
  lemma LookupCongruent(a: Store, b: Store, pairs: seq<(string, string)>, key: string)
    requires forall j :: 0 <= j < |pairs| ==>
      (Member(a, pairs[j].0, pairs[j].1, key) <==> Member(b, pairs[j].0, pairs[j].1, key))
    requires forall j :: 0 <= j < |pairs| && Member(a, pairs[j].0, pairs[j].1, key) ==>
      EntryInfo(a, pairs[j].0, pairs[j].1, key) == EntryInfo(b, pairs[j].0, pairs[j].1, key)
    ensures Lookup(a, pairs, key) == Lookup(b, pairs, key)
  {
    var fa, fb := FirstMatchIndex(a, pairs, key), FirstMatchIndex(b, pairs, key);
    if fa.Some? && fb.Some? {
      assert !(fa.value < fb.value);
      assert !(fb.value < fa.value);
    }
  }

  /** `setChartTier` on one chart leaves what `getChartTier` reports for
      every other chart. */
  lemma SetTierOtherCharts(songId: int, diffIndex: int, otherId: int, otherDiff: int, store: Store,
                           level: Option<string>, tier: Option<string>, rangeInfo: Option<RangeInfo>)
    requires MakeChartKey(otherId, otherDiff) != MakeChartKey(songId, diffIndex)
    requires AllScanned(store) && NoDuplicates(store, MakeChartKey(songId, diffIndex))
    ensures var after := SetTier(store, MakeChartKey(songId, diffIndex), level, tier, rangeInfo);
      GetChartTier(otherId, otherDiff, after) == GetChartTier(otherId, otherDiff, store)
  {
    var key, other := MakeChartKey(songId, diffIndex), MakeChartKey(otherId, otherDiff);
    var after := SetTier(store, key, level, tier, rangeInfo);
    var pairs := ScanOrder();
    SetTierKeepsOrder(store, key, level, tier, rangeInfo);
    forall j | 0 <= j < |pairs|
      ensures Member(store, pairs[j].0, pairs[j].1, other) <==> Member(after, pairs[j].0, pairs[j].1, other)
      ensures Member(store, pairs[j].0, pairs[j].1, other) ==>
        EntryInfo(store, pairs[j].0, pairs[j].1, other) == EntryInfo(after, pairs[j].0, pairs[j].1, other)
    {
      var l, t := pairs[j].0, pairs[j].1;
      if l in store && t in store[l] {
        OtherAfterSet(store, key, level, tier, rangeInfo, l, t, other);
      }
    }
    LookupCongruent(store, after, pairs, other);
  }
}
