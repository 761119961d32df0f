/** The tier store of src/utils/tierManager.js: two difficulty levels, `14`
    and `14+`, each holding eleven named tier lists of charts. Fixed tiers and
    `emoji` hold chart keys `"songId-diffIndex"`; the `range` tier holds
    entries `{chartKey, min, max}` whose bounds are tier names. */
module TierManager {
  import opened Wrappers
  import opened JsText

  // ---------------------------------------------------------------------
  // Data model

  /** One list entry: a chart key (fixed tiers and `emoji`) or a range entry. */
  datatype Item = Key(key: string) | Range(chartKey: string, min: string, max: string)

  /** Level name -> tier name -> list, the shape of the persisted object. */
  type Store = map<string, map<string, seq<Item>>>

  /** The entry a lookup reports: the level and tier that hold the chart and,
      for the `range` tier, the entry's bounds. */
  datatype TierInfo = TierInfo(level: string, tier: string, rangeMin: Option<string>, rangeMax: Option<string>)

  /** The two levels, in the order every scan visits them. */
  const Levels: seq<string> := ["14", "14+"]

  /** The lowest tier of a level: `14` inside `14+`, `13+` everywhere else. */
  function FloorTier(level: string): string
  {
    if level == "14+" then "14" else "13+"
  }

  /** `getTierNames(level)`: the tier names of a level, easiest first. */
  function TierNames(level: string): (names: seq<string>)
    ensures |names| == 11
    ensures names[0] == FloorTier(level)
    ensures names[1..9] == ["0", "1", "2", "3", "4", "5", "6", "7"]
    ensures names[9] == "range" && names[10] == "emoji"
  {
    [FloorTier(level), "0", "1", "2", "3", "4", "5", "6", "7", "range", "emoji"]
  }

  /** No tier name occurs twice in a level. */
  lemma TierNamesDistinct(level: string)
    ensures forall i, j :: 0 <= i < j < 11 ==> TierNames(level)[i] != TierNames(level)[j]
  {
  }

  function TierSet(level: string): set<string>
  {
    set t | t in TierNames(level)
  }

  /** `getAllTierNames()`: every tier name of either level, each once. */
  function AllTierNames(): (names: seq<string>)
    ensures |names| == 12
    ensures forall i, j :: 0 <= i < j < |names| ==> names[i] != names[j]
    ensures forall t :: t in names <==> t in TierNames("14") || t in TierNames("14+")
  {
    var names := ["13+", "14", "0", "1", "2", "3", "4", "5", "6", "7", "range", "emoji"];
    assert TierNames("14") == names[..1] + names[2..];
    assert TierNames("14+") == names[1..];
    assert names == names[..1] + names[1..];
    names
  }

  /** The schema every migrated store has: exactly the two levels, each with
      exactly its own tier names. */
  ghost predicate WellFormed(store: Store)
  {
    && store.Keys == {"14", "14+"}
    && forall l :: l in store ==> store[l].Keys == TierSet(l)
  }

  /** Every list of the store is one the scans visit. */
  ghost predicate AllScanned(store: Store)
  {
    forall l, t :: l in store && t in store[l] ==> Scanned(l, t)
  }

  /** The scans visit every list of a store in the schema. */
  lemma WellFormedScanned(store: Store)
    requires WellFormed(store)
    ensures AllScanned(store)
  {
    forall l, t | l in store && t in store[l] ensures Scanned(l, t) {
      assert t in TierSet(l);
    }
  }

  /** The default structure: every tier of both levels empty. */
  function DefaultStore(): (store: Store)
    ensures WellFormed(store)
    ensures forall l, t :: l in store && t in store[l] ==> store[l][t] == []
  {
    map l | l in {"14", "14+"} :: map t | t in TierSet(l) :: []
  }

  // ---------------------------------------------------------------------
  // Chart keys

  /** The template `${songId}-${diffIndex}` with the song id already printed. */
  function FormatKey(songIdText: string, diffIndex: int): string
  {
    songIdText + "-" + IntToString(diffIndex)
  }

  /** `makeChartKey(songId, diffIndex)`. */
  function MakeChartKey(songId: int, diffIndex: int): (key: string)
    ensures '-' in key
  {
    var key := FormatKey(IntToString(songId), diffIndex);
    assert key[|IntToString(songId)|] == '-';
    key
  }

  /** What `parseChartKey` returns; a NaN field is a part that did not parse. */
  datatype ParsedKey = ParsedKey(songId: JsNumber, diffIndex: JsNumber)

  /** `parseChartKey(key)`: split on `-`, `parseInt` the first two pieces;
      a missing second piece parses as NaN. */
  function ParseChartKey(key: string): (r: ParsedKey)
    ensures '-' !in key ==> r.diffIndex == NaN
  {
    var pieces := Split(key, '-');
    ParsedKey(ParseInt(pieces[0]), if |pieces| > 1 then ParseInt(pieces[1]) else NaN)
  }

  // ---------------------------------------------------------------------
  // Membership

  /** Whether a list entry stands for the chart: in `range` an object whose
      `chartKey` is the key, elsewhere the key string itself. */
  predicate Matches(tier: string, item: Item, key: string)
  {
    if tier == "range" then item.Range? && item.chartKey == key else item.Key? && item.key == key
  }

  predicate HasEntry(tier: string, items: seq<Item>, key: string)
  {
    exists i :: 0 <= i < |items| && Matches(tier, items[i], key)
  }

  /** `find`/`findIndex`/`indexOf`/`includes` on one list: the index of the
      first entry that stands for the chart. */
  function FindEntry(tier: string, items: seq<Item>, key: string): (r: Option<nat>)
    ensures r.None? <==> !HasEntry(tier, items, key)
    ensures r.Some? ==> r.value < |items| && Matches(tier, items[r.value], key)
    ensures r.Some? ==> forall j :: 0 <= j < r.value ==> !Matches(tier, items[j], key)
  {
    if items == [] then None
    else if Matches(tier, items[0], key) then Some(0)
    else
      match FindEntry(tier, items[1..], key)
      case None => None
      case Some(i) => Some(i + 1)
  }

  /** Whether the list `store[level][tier]` exists and holds the chart. */
  predicate Member(store: Store, level: string, tier: string, key: string)
  {
    level in store && tier in store[level] && HasEntry(tier, store[level][tier], key)
  }

  /** The (level, tier) pairs of one level, in `getTierNames` order. */
  function LevelPairs(level: string): (pairs: seq<(string, string)>)
    ensures |pairs| == 11
    ensures forall i :: 0 <= i < 11 ==> pairs[i] == (level, TierNames(level)[i])
  {
    seq(11, i requires 0 <= i < 11 => (level, TierNames(level)[i]))
  }

  /** Every list the store operations visit, in their visiting order. */
  function ScanOrder(): seq<(string, string)>
  {
    LevelPairs("14") + LevelPairs("14+")
  }

  /** Whether a list is one the scans visit. */
  predicate Scanned(level: string, tier: string)
  {
    (level == "14" || level == "14+") && tier in TierNames(level)
  }

  /** `k` is the first position of `pairs` whose list holds the chart. */
  predicate FirstMember(store: Store, pairs: seq<(string, string)>, key: string, k: nat)
  {
    && k < |pairs|
    && Member(store, pairs[k].0, pairs[k].1, key)
    && forall j :: 0 <= j < k ==> !Member(store, pairs[j].0, pairs[j].1, key)
  }

  function FirstMatchIndex(store: Store, pairs: seq<(string, string)>, key: string): (r: Option<nat>)
    ensures r.Some? ==> FirstMember(store, pairs, key, r.value)
    ensures r.None? <==> forall j :: 0 <= j < |pairs| ==> !Member(store, pairs[j].0, pairs[j].1, key)
  {
    if pairs == [] then None
    else if Member(store, pairs[0].0, pairs[0].1, key) then Some(0)
    else
      match FirstMatchIndex(store, pairs[1..], key)
      case None => None
      case Some(i) => Some(i + 1)
  }

  /** The report for a list that holds the chart: level and tier and, for
      `range`, the bounds of the first entry for the chart. */
  function EntryInfo(store: Store, level: string, tier: string, key: string): (info: TierInfo)
    requires Member(store, level, tier, key)
    ensures info.level == level && info.tier == tier
    ensures tier != "range" ==> info.rangeMin.None? && info.rangeMax.None?
    ensures tier == "range" ==> info.rangeMin.Some? && info.rangeMax.Some?
    ensures tier == "range" ==>
      var i := FindEntry(tier, store[level][tier], key).value;
      store[level][tier][i] == Range(key, info.rangeMin.value, info.rangeMax.value)
  {
    var items := store[level][tier];
    var i := FindEntry(tier, items, key).value;
    if tier == "range" then TierInfo(level, tier, Some(items[i].min), Some(items[i].max))
    else TierInfo(level, tier, None, None)
  }

  /** First-match lookup of a chart over the given lists. */
  function Lookup(store: Store, pairs: seq<(string, string)>, key: string): (r: Option<TierInfo>)
    ensures r.None? <==> forall j :: 0 <= j < |pairs| ==> !Member(store, pairs[j].0, pairs[j].1, key)
    ensures r.Some? ==> exists k: nat ::
      (FirstMember(store, pairs, key, k) && r.value == EntryInfo(store, pairs[k].0, pairs[k].1, key))
  {
    match FirstMatchIndex(store, pairs, key)
    case None => None
    case Some(k) =>
      var info := EntryInfo(store, pairs[k].0, pairs[k].1, key);
      assert FirstMember(store, pairs, key, k);
      Some(info)
  }

  /** Position `k` of the scan is tier `k % 11` of level `k / 11`. */
  lemma ScanOrderSlots()
    ensures |ScanOrder()| == 22
    ensures forall k :: 0 <= k < 22 ==> ScanOrder()[k] == (Levels[k / 11], TierNames(Levels[k / 11])[k % 11])
  {
    var s := ScanOrder();
    forall k | 0 <= k < 22
      ensures s[k] == (Levels[k / 11], TierNames(Levels[k / 11])[k % 11])
    {
      if k < 11 {
        assert s[k] == LevelPairs("14")[k];
      } else {
        assert s[k] == LevelPairs("14+")[k - 11];
      }
    }
  }

  /** The scan visits exactly the scanned lists. */
  lemma ScanOrderCovers()
    ensures forall k :: 0 <= k < |ScanOrder()| ==> Scanned(ScanOrder()[k].0, ScanOrder()[k].1)
    ensures forall l, t :: Scanned(l, t) ==> exists k :: 0 <= k < |ScanOrder()| && ScanOrder()[k] == (l, t)
  {
    ScanOrderSlots();
    forall k | 0 <= k < 22 ensures Scanned(ScanOrder()[k].0, ScanOrder()[k].1) {
      assert TierNames(Levels[k / 11])[k % 11] in TierNames(Levels[k / 11]);
    }
    forall l, t | Scanned(l, t) ensures exists k :: 0 <= k < 22 && ScanOrder()[k] == (l, t) {
      var i := if l == "14" then 0 else 1;
      var j :| 0 <= j < 11 && TierNames(l)[j] == t;
      assert ScanOrder()[11 * i + j] == (l, t);
    }
  }

  /** `getChartTier(songId, diffIndex, tierData)`: the first list, level `14`
      before `14+` and tiers in `getTierNames` order, that holds the chart. */
  function GetChartTier(songId: int, diffIndex: int, store: Store): (r: Option<TierInfo>)
    ensures var key := MakeChartKey(songId, diffIndex);
      r.None? <==> forall l, t :: Scanned(l, t) ==> !Member(store, l, t, key)
    ensures var key := MakeChartKey(songId, diffIndex);
      r.Some? ==>
        && Scanned(r.value.level, r.value.tier)
        && Member(store, r.value.level, r.value.tier, key)
        && r.value == EntryInfo(store, r.value.level, r.value.tier, key)
  {
    var key := MakeChartKey(songId, diffIndex);
    ScanOrderCovers();
    Lookup(store, ScanOrder(), key)
  }

  /** One position of the scan. */
  lemma ScanSlot(k: nat)
    requires k < 22
    ensures |ScanOrder()| == 22 && ScanOrder()[k] == (Levels[k / 11], TierNames(Levels[k / 11])[k % 11])
  {
    ScanOrderSlots();
  }

  /** The position of the list `getChartTier` reports. */
  lemma GetChartTierSlot(songId: int, diffIndex: int, store: Store) returns (k: nat)
    requires GetChartTier(songId, diffIndex, store).Some?
    ensures k < 22 && FirstMember(store, ScanOrder(), MakeChartKey(songId, diffIndex), k)
    ensures ScanOrder()[k] == (GetChartTier(songId, diffIndex, store).value.level, GetChartTier(songId, diffIndex, store).value.tier)
  {
    var key := MakeChartKey(songId, diffIndex);
    var s := ScanOrder();
    ScanSlot(0);
    k :| FirstMember(store, s, key, k) && Lookup(store, s, key).value == EntryInfo(store, s[k].0, s[k].1, key);
  }

  /** The list `getChartTier` reports is the first in scan order: no list of
      level `14` holds the chart when it reports `14+`, and no earlier tier of
      its level holds it. */
  lemma GetChartTierFirstMatch(songId: int, diffIndex: int, store: Store)
    requires GetChartTier(songId, diffIndex, store).Some?
    ensures var info, key := GetChartTier(songId, diffIndex, store).value, MakeChartKey(songId, diffIndex);
      info.level == "14+" ==> forall t :: Scanned("14", t) ==> !Member(store, "14", t, key)
    ensures var info, key := GetChartTier(songId, diffIndex, store).value, MakeChartKey(songId, diffIndex);
      exists i :: 0 <= i < 11 && TierNames(info.level)[i] == info.tier &&
        forall j :: 0 <= j < i ==> !Member(store, info.level, TierNames(info.level)[j], key)
  {
    var key := MakeChartKey(songId, diffIndex);
    var info := GetChartTier(songId, diffIndex, store).value;
    var s := ScanOrder();
    var k := GetChartTierSlot(songId, diffIndex, store);
    var li := if k < 11 then 0 else 1;
    var i := k - 11 * li;
    ScanSlotAt(li, i);
    assert info.level == Levels[li] && info.tier == TierNames(info.level)[i];
    if info.level == "14+" {
      forall t | Scanned("14", t) ensures !Member(store, "14", t, key) {
        var j :| 0 <= j < 11 && TierNames("14")[j] == t;
        ScanSlotAt(0, j);
        assert FirstMember(store, s, key, k) && j < k;
      }
    }
    forall j | 0 <= j < i ensures !Member(store, info.level, TierNames(info.level)[j], key) {
      ScanSlotAt(li, j);
      assert FirstMember(store, s, key, k) && 11 * li + j < k;
    }
  }

  /** Tier `ti` of level `Levels[li]` is position `11 * li + ti` of the scan. */
  lemma ScanSlotAt(li: nat, ti: nat)
    requires li < 2 && ti < 11
    ensures |ScanOrder()| == 22 && ScanOrder()[11 * li + ti] == (Levels[li], TierNames(Levels[li])[ti])
  {
    if li == 0 {
      assert ScanOrder()[ti] == LevelPairs("14")[ti];
    } else {
      assert ScanOrder()[11 + ti] == LevelPairs("14+")[ti];
    }
  }

  // ---------------------------------------------------------------------
  // Legacy migration

  /** A JSON scalar as it may sit in a persisted range bound. */
  datatype Scalar = SNum(n: int) | SStr(s: string) | SNull | SUndefined

  /** `String(v)`. */
  function ScalarText(v: Scalar): string
  {
    match v
    case SNum(n) => IntToString(n)
    case SStr(s) => s
    case SNull => "null"
    case SUndefined => "undefined"
  }

  /** A persisted list entry in any historical format: a bare song id, a
      string, or an object (an empty `chartKey` stands for a missing one). */
  datatype Legacy = Num(n: int) | Str(s: string) | Obj(chartKey: string, min: Scalar, max: Scalar)

  /** Persisted tiers before migration: level -> tier -> list. */
  type RawTiers = map<string, map<string, seq<Legacy>>>

  /** `Number(item)`. */
  function ToNumber(item: Legacy): JsNumber
  {
    match item
    case Num(n) => Finite(n)
    case Str(s) => StringToNumber(s)
    case Obj(_, _, _) => NaN
  }

  /** The chart key a legacy entry stands for: a string holding `-` as it is,
      anything else read as a song id of difficulty 3. */
  function LegacyKey(item: Legacy): (key: string)
    ensures '-' in key
    ensures item.Str? && '-' in item.s ==> key == item.s
    ensures item.Num? ==> key == MakeChartKey(item.n, 3)
    ensures item.Str? && '-' !in item.s && StringToNumber(item.s).Finite? ==>
      key == MakeChartKey(StringToNumber(item.s).n, 3)
    ensures item.Str? && '-' !in item.s && StringToNumber(item.s).NaN? ==> key == "NaN-3"
    ensures item.Obj? ==> key == "NaN-3"
  {
    if item.Str? && '-' in item.s then item.s
    else
      var key := FormatKey(NumberText(ToNumber(item)), 3);
      assert key[|NumberText(ToNumber(item))|] == '-';
      key
  }

  /** The migrated form of one entry of the given tier. */
  function MigrateItem(tier: string, item: Legacy): (r: Item)
    ensures tier == "range" ==> r.Range? && r.chartKey != ""
    ensures tier != "range" ==> r == Key(LegacyKey(item)) && '-' in r.key
    ensures tier == "range" && item.Obj? && item.chartKey != "" ==>
      r == Range(item.chartKey, ScalarText(item.min), ScalarText(item.max))
    ensures tier == "range" && !(item.Obj? && item.chartKey != "") ==> r == Range(LegacyKey(item), "0", "0")
  {
    if tier == "range" then
      if item.Obj? && item.chartKey != "" then Range(item.chartKey, ScalarText(item.min), ScalarText(item.max))
      else Range(LegacyKey(item), "0", "0")
    else Key(LegacyKey(item))
  }

  /** `tiers[level]?.[tier] || []`. */
  function RawItems(raw: RawTiers, level: string, tier: string): seq<Legacy>
  {
    if level in raw && tier in raw[level] then raw[level][tier] else []
  }

  function MigrateList(tier: string, items: seq<Legacy>): (r: seq<Item>)
    ensures |r| == |items|
    ensures forall i :: 0 <= i < |r| ==> r[i] == MigrateItem(tier, items[i]) && CanonicalItem(tier, r[i])
  {
    seq(|items|, i requires 0 <= i < |items| => MigrateItem(tier, items[i]))
  }

  /** The canonical form of one entry of a tier. */
  predicate CanonicalItem(tier: string, item: Item)
  {
    if tier == "range" then item.Range? && item.chartKey != "" else item.Key? && '-' in item.key
  }

  /** The schema, with every entry in canonical form. */
  ghost predicate Canonical(store: Store)
  {
    && WellFormed(store)
    && forall l, t, i :: l in store && t in store[l] && 0 <= i < |store[l][t]| ==> CanonicalItem(t, store[l][t][i])
  }

  /** `migrateLegacyData(tiers)`: a fresh store with exactly the schema's lists,
      each the entry-by-entry migration of the persisted list (or empty). */
  function MigrateLegacyData(raw: RawTiers): (r: Store)
    ensures Canonical(r)
    ensures forall l, t :: l in r && t in r[l] ==> |r[l][t]| == |RawItems(raw, l, t)|
    ensures forall l, t, i :: l in r && t in r[l] && 0 <= i < |r[l][t]| ==>
      r[l][t][i] == MigrateItem(t, RawItems(raw, l, t)[i])
  {
    var r := map l | l in {"14", "14+"} :: MigrateLevel(raw, l);
    assert WellFormed(r);
    r
  }

  /** The migrated lists of one level: every tier of the level, each the
      migration of the persisted list (or empty). */
  function MigrateLevel(raw: RawTiers, level: string): (tiers: map<string, seq<Item>>)
    ensures tiers.Keys == TierSet(level)
    ensures forall t :: t in tiers ==> tiers[t] == MigrateList(t, RawItems(raw, level, t))
  {
    map t | t in TierSet(level) :: MigrateList(t, RawItems(raw, level, t))
  }

  /** A parsed import document: its `tiers` field, if truthy, and its own
      top-level level entries. */
  datatype ImportDoc = ImportDoc(tiers: Option<RawTiers>, top: RawTiers)

  datatype ImportError = InvalidFormat

  /** `importTierData` after `JSON.parse`: take `data.tiers`, else `data` when
      it has a `14` or `14+` entry, else fail; then migrate. */
  function ImportTierData(doc: ImportDoc): (r: Result<Store, ImportError>)
    ensures r.Ok? <==> doc.tiers.Some? || "14" in doc.top || "14+" in doc.top
    ensures r.Ok? ==> Canonical(r.value)
    ensures doc.tiers.Some? ==> r == Ok(MigrateLegacyData(doc.tiers.value))
    ensures doc.tiers.None? && ("14" in doc.top || "14+" in doc.top) ==> r == Ok(MigrateLegacyData(doc.top))
  {
    if doc.tiers.Some? then Ok(MigrateLegacyData(doc.tiers.value))
    else if "14" in doc.top || "14+" in doc.top then Ok(MigrateLegacyData(doc.top))
    else Err(InvalidFormat)
  }

  // ---------------------------------------------------------------------
  // Reclassification

  /** JavaScript truthiness of an optional string argument. */
  predicate Truthy(s: Option<string>)
  {
    s.Some? && s.value != ""
  }

  /** The `rangeInfo` argument: `{min, max}`, either possibly undefined. */
  datatype RangeInfo = RangeInfo(min: Scalar, max: Scalar)

  predicate RangeComplete(info: Option<RangeInfo>)
  {
    info.Some? && !info.value.min.SUndefined? && !info.value.max.SUndefined?
  }

  /** One list with its first entry for the chart spliced out. */
  function RemoveFirst(tier: string, items: seq<Item>, key: string): (r: seq<Item>)
    ensures HasEntry(tier, items, key) ==> |r| == |items| - 1
    ensures !HasEntry(tier, items, key) ==> r == items
  {
    match FindEntry(tier, items, key)
    case None => items
    case Some(i) => items[..i] + items[i + 1..]
  }

  /** The removal pass: every scanned list that exists loses its first entry
      for the chart; nothing else changes. */
  function RemoveChart(store: Store, key: string): (r: Store)
    ensures r.Keys == store.Keys
    ensures forall l :: l in r ==> r[l].Keys == store[l].Keys
    ensures forall l, t :: l in r && t in r[l] ==>
      r[l][t] == if Scanned(l, t) then RemoveFirst(t, store[l][t], key) else store[l][t]
  {
    map l | l in store :: map t | t in store[l] ::
      if Scanned(l, t) then RemoveFirst(t, store[l][t], key) else store[l][t]
  }

  /** The entry `setChartTier` pushes into the tier. */
  function NewEntry(key: string, tier: string, rangeInfo: Option<RangeInfo>): Item
  {
    if tier == "range" && rangeInfo.Some? then Range(key, ScalarText(rangeInfo.value.min), ScalarText(rangeInfo.value.max))
    else Key(key)
  }

  /** The insertion pass: push the entry when level and tier are truthy and
      name an existing list; a range entry needs both bounds defined, a chart
      key is pushed only if the list does not already hold it. */
  function AddChart(store: Store, key: string, level: Option<string>, tier: Option<string>, rangeInfo: Option<RangeInfo>): (r: Store)
    ensures r.Keys == store.Keys
    ensures forall l :: l in r ==> r[l].Keys == store[l].Keys
    ensures forall l, t :: l in r && t in r[l] ==>
      r[l][t] == if Pushes(store, key, level, tier, rangeInfo) && l == level.value && t == tier.value
                 then store[l][t] + [NewEntry(key, t, rangeInfo)]
                 else store[l][t]
  {
    if Truthy(level) && Truthy(tier) && level.value in store && tier.value in store[level.value] then
      var l, t := level.value, tier.value;
      var items := store[l][t];
      if (if t == "range" then RangeComplete(rangeInfo) else !HasEntry(t, items, key))
      then store[l := store[l][t := items + [NewEntry(key, t, rangeInfo)]]]
      else store
    else store
  }

  /** Whether the insertion pass pushes an entry. */
  predicate Pushes(store: Store, key: string, level: Option<string>, tier: Option<string>, rangeInfo: Option<RangeInfo>)
  {
    && Truthy(level) && Truthy(tier) && level.value in store && tier.value in store[level.value]
    && if tier.value == "range" then RangeComplete(rangeInfo) else !HasEntry(tier.value, store[level.value][tier.value], key)
  }

  /** What the insertion pass does, case by case. */
  lemma AddChartCases(store: Store, key: string, level: Option<string>, tier: Option<string>, rangeInfo: Option<RangeInfo>)
    ensures !(Truthy(level) && Truthy(tier) && level.value in store && tier.value in store[level.value]) ==>
      AddChart(store, key, level, tier, rangeInfo) == store
    ensures Truthy(level) && Truthy(tier) && level.value in store && tier.value in store[level.value] ==>
      var l, t := level.value, tier.value;
      AddChart(store, key, level, tier, rangeInfo) ==
        if (if t == "range" then RangeComplete(rangeInfo) else !HasEntry(t, store[l][t], key))
        then store[l := store[l][t := store[l][t] + [NewEntry(key, t, rangeInfo)]]]
        else store
  {
  }

  /** `setChartTier`: remove the chart everywhere, then insert it. */
  function SetTier(store: Store, key: string, level: Option<string>, tier: Option<string>, rangeInfo: Option<RangeInfo>): Store
  {
    AddChart(RemoveChart(store, key), key, level, tier, rangeInfo)
  }

  /** Whether slot `j` of level `Levels[i]` comes before slot `ti` of level
      `Levels[li]` in the scan. */
  predicate SlotDone(i: nat, j: nat, li: nat, ti: nat)
  {
    i < li || (i == li && j < ti)
  }

  /** `current` is `start` after the removal pass visited the levels before
      `li` and, in level `li`, its tiers before `ti`. */
  ghost predicate PartlyRemoved(current: Store, start: Store, key: string, li: nat, ti: nat)
  {
    && current.Keys == start.Keys
    && (forall l :: l in start ==> current[l].Keys == start[l].Keys)
    && (forall l, t :: l in start && t in start[l] && !Scanned(l, t) ==> current[l][t] == start[l][t])
    && forall i, j :: 0 <= i < 2 && 0 <= j < 11 && Levels[i] in start && TierNames(Levels[i])[j] in start[Levels[i]] ==>
         var l, t := Levels[i], TierNames(Levels[i])[j];
         current[l][t] == if SlotDone(i, j, li, ti) then RemoveFirst(t, start[l][t], key) else start[l][t]
  }

  /** The store the application edits in place. */
  class TierStore {
    var tiers: Store

    constructor (tiers: Store)
      ensures this.tiers == tiers
    {
      this.tiers := tiers;
    }

    /** The removal loops of `setChartTier`: in every scanned list, the first
        entry for the chart is spliced out. */
    method RemoveEverywhere(chartKey: string)
      modifies this
      ensures tiers == RemoveChart(old(tiers), chartKey)
    {
      ghost var start := tiers;
      var li := 0;
      while li < |Levels|
        invariant li <= |Levels|
        invariant PartlyRemoved(tiers, start, chartKey, li, 0)
      {
        RemoveInLevel(chartKey, li, start);
        li := li + 1;
      }
      RemovedAll(tiers, start, chartKey);
    }

    /** The inner removal loop, over the tiers of level `Levels[li]`. */
    method RemoveInLevel(chartKey: string, li: nat, ghost start: Store)
      requires li < |Levels|
      requires PartlyRemoved(tiers, start, chartKey, li, 0)
      modifies this
      ensures PartlyRemoved(tiers, start, chartKey, li + 1, 0)
    {
      var l := Levels[li];
      var names := TierNames(l);
      var ti := 0;
      while ti < |names|
        invariant ti <= |names|
        invariant PartlyRemoved(tiers, start, chartKey, li, ti)
      {
        ghost var before := tiers;
        RemoveFromList(chartKey, l, names[ti]);
        RemoveStep(before, tiers, start, chartKey, li, ti);
        ti := ti + 1;
      }
      NextLevel(tiers, start, chartKey, li);
    }

    /** One step of the removal loops: when the list exists and holds the
        chart, its first entry for the chart is spliced out. */
    method RemoveFromList(chartKey: string, l: string, t: string)
      modifies this
      ensures tiers ==
        if l in old(tiers) && t in old(tiers)[l] && HasEntry(t, old(tiers)[l][t], chartKey)
        then old(tiers)[l := old(tiers)[l][t := RemoveFirst(t, old(tiers)[l][t], chartKey)]]
        else old(tiers)
    {
      if l in tiers && t in tiers[l] {
        var items := tiers[l][t];
        var index := FindEntry(t, items, chartKey);
        if index.Some? {
          tiers := tiers[l := tiers[l][t := items[..index.value] + items[index.value + 1..]]];
        }
      }
    }

    /** `setChartTier(songId, diffIndex, level, tier, tierData, rangeInfo)`:
        the removal loops, then the insertion. */
    method SetChartTier(songId: int, diffIndex: int, level: Option<string>, tier: Option<string>, rangeInfo: Option<RangeInfo>)
      modifies this
      ensures tiers == SetTier(old(tiers), MakeChartKey(songId, diffIndex), level, tier, rangeInfo)
    {
      var chartKey := MakeChartKey(songId, diffIndex);
      RemoveEverywhere(chartKey);
      ghost var removed := tiers;
      AddChartCases(removed, chartKey, level, tier, rangeInfo);
      if level.Some? && level.value != "" && tier.Some? && tier.value != "" && level.value in tiers && tier.value in tiers[level.value] {
        var l, t := level.value, tier.value;
        var items := tiers[l][t];
        if t == "range" {
          if rangeInfo.Some? && !rangeInfo.value.min.SUndefined? && !rangeInfo.value.max.SUndefined? {
            assert RangeComplete(rangeInfo);
            assert NewEntry(chartKey, t, rangeInfo) == Range(chartKey, ScalarText(rangeInfo.value.min), ScalarText(rangeInfo.value.max));
            tiers := tiers[l := tiers[l][t := items + [Range(chartKey, ScalarText(rangeInfo.value.min), ScalarText(rangeInfo.value.max))]]];
            assert tiers == removed[l := removed[l][t := removed[l][t] + [NewEntry(chartKey, t, rangeInfo)]]];
            assert tiers == AddChart(removed, chartKey, level, tier, rangeInfo);
          } else {
            assert tiers == AddChart(removed, chartKey, level, tier, rangeInfo);
          }
        } else if FindEntry(t, items, chartKey).None? {
          tiers := tiers[l := tiers[l][t := items + [Key(chartKey)]]];
          assert tiers == AddChart(removed, chartKey, level, tier, rangeInfo);
        } else {
          assert tiers == AddChart(removed, chartKey, level, tier, rangeInfo);
        }
      } else {
        assert tiers == AddChart(removed, chartKey, level, tier, rangeInfo);
      }
    }
  }

  /** Two stores with the same lists are equal. */
  lemma StoreExt(a: Store, b: Store)
    requires a.Keys == b.Keys
    requires forall l :: l in a ==> a[l].Keys == b[l].Keys
    requires forall l, t :: l in a && t in a[l] ==> a[l][t] == b[l][t]
    ensures a == b
  {
    forall l | l in a ensures a[l] == b[l] {
      assert forall t :: t in a[l] ==> a[l][t] == b[l][t];
    }
  }

  lemma RemovedAll(current: Store, store: Store, key: string)
    requires PartlyRemoved(current, store, key, 2, 0)
    ensures current == RemoveChart(store, key)
  {
    forall l, t | l in store && t in store[l] && Scanned(l, t)
      ensures current[l][t] == RemoveFirst(t, store[l][t], key)
    {
      var i := if l == "14" then 0 else 1;
      var j :| 0 <= j < 11 && TierNames(l)[j] == t;
      assert Levels[i] == l;
      assert SlotDone(i, j, 2, 0);
    }
    StoreExt(current, RemoveChart(store, key));
  }

  /** Visiting tier `ti` of level `li` splices that list and no other. */
  lemma RemoveStep(before: Store, after: Store, store: Store, key: string, li: nat, ti: nat)
    requires li < |Levels| && ti < 11
    requires PartlyRemoved(before, store, key, li, ti)
    requires var l, t := Levels[li], TierNames(Levels[li])[ti];
      after == if l in before && t in before[l] && HasEntry(t, before[l][t], key)
        then before[l := before[l][t := RemoveFirst(t, before[l][t], key)]]
        else before
    ensures PartlyRemoved(after, store, key, li, ti + 1)
  {
    var l, t := Levels[li], TierNames(Levels[li])[ti];
    if l in before && t in before[l] && HasEntry(t, before[l][t], key) {
      SplicedStep(before, after, store, key, li, ti);
    } else {
      UnchangedStep(before, store, key, li, ti);
    }
  }

  /** Visiting a list that does not hold the chart changes nothing. */
  lemma UnchangedStep(current: Store, store: Store, key: string, li: nat, ti: nat)
    requires li < |Levels| && ti < 11
    requires PartlyRemoved(current, store, key, li, ti)
    requires var l, t := Levels[li], TierNames(Levels[li])[ti];
      !(l in current && t in current[l] && HasEntry(t, current[l][t], key))
    ensures PartlyRemoved(current, store, key, li, ti + 1)
  {
    forall i, j | 0 <= i < 2 && 0 <= j < 11 && Levels[i] in store && TierNames(Levels[i])[j] in store[Levels[i]]
      ensures var l', t' := Levels[i], TierNames(Levels[i])[j];
        current[l'][t'] == if SlotDone(i, j, li, ti + 1) then RemoveFirst(t', store[l'][t'], key) else store[l'][t']
    {
      if !(i == li && j == ti) {
        assert SlotDone(i, j, li, ti + 1) == SlotDone(i, j, li, ti);
      }
    }
  }

  /** Visiting a list that holds the chart splices that list and no other. */
  lemma SplicedStep(before: Store, after: Store, store: Store, key: string, li: nat, ti: nat)
    requires li < |Levels| && ti < 11
    requires PartlyRemoved(before, store, key, li, ti)
    requires Levels[li] in before && TierNames(Levels[li])[ti] in before[Levels[li]]
    requires var l, t := Levels[li], TierNames(Levels[li])[ti];
      after == before[l := before[l][t := RemoveFirst(t, before[l][t], key)]]
    ensures PartlyRemoved(after, store, key, li, ti + 1)
  {
    var l, t := Levels[li], TierNames(Levels[li])[ti];
    SplicedKeys(before, after, store, key, l, t);
    SplicedOthers(before, after, store, key, l, t);
    SplicedSlots(before, after, store, key, li, ti);
  }

  /** Splicing a list keeps the levels and tiers of the store. */
  lemma SplicedKeys(before: Store, after: Store, store: Store, key: string, l: string, t: string)
    requires l in before && t in before[l]
    requires after == before[l := before[l][t := RemoveFirst(t, before[l][t], key)]]
    requires before.Keys == store.Keys && forall l' :: l' in store ==> before[l'].Keys == store[l'].Keys
    ensures after.Keys == store.Keys && forall l' :: l' in store ==> after[l'].Keys == store[l'].Keys
  {
    forall l' | l' in store ensures after[l'].Keys == store[l'].Keys {
      if l' == l {
        assert after[l].Keys == before[l].Keys;
      }
    }
  }

  /** Splicing a scanned list leaves the lists the scan does not visit. */
  lemma SplicedOthers(before: Store, after: Store, store: Store, key: string, l: string, t: string)
    requires Scanned(l, t) && l in before && t in before[l]
    requires after == before[l := before[l][t := RemoveFirst(t, before[l][t], key)]]
    requires before.Keys == store.Keys && forall l' :: l' in store ==> before[l'].Keys == store[l'].Keys
    requires forall l', t' :: l' in store && t' in store[l'] && !Scanned(l', t') ==> before[l'][t'] == store[l'][t']
    ensures forall l', t' :: l' in store && t' in store[l'] && !Scanned(l', t') ==> after[l'][t'] == store[l'][t']
  {
  }

  /** Splicing slot `ti` of level `li` completes that slot and keeps the
      others. */
  lemma SplicedSlots(before: Store, after: Store, store: Store, key: string, li: nat, ti: nat)
    requires li < |Levels| && ti < 11
    requires PartlyRemoved(before, store, key, li, ti)
    requires Levels[li] in before && TierNames(Levels[li])[ti] in before[Levels[li]]
    requires var l, t := Levels[li], TierNames(Levels[li])[ti];
      after == before[l := before[l][t := RemoveFirst(t, before[l][t], key)]]
    ensures forall i, j :: 0 <= i < 2 && 0 <= j < 11 && Levels[i] in store && TierNames(Levels[i])[j] in store[Levels[i]] ==>
      var l', t' := Levels[i], TierNames(Levels[i])[j];
      after[l'][t'] == if SlotDone(i, j, li, ti + 1) then RemoveFirst(t', store[l'][t'], key) else store[l'][t']
  {
    var l, t := Levels[li], TierNames(Levels[li])[ti];
    TierNamesDistinct(l);
    forall i, j | 0 <= i < 2 && 0 <= j < 11 && Levels[i] in store && TierNames(Levels[i])[j] in store[Levels[i]]
      ensures var l', t' := Levels[i], TierNames(Levels[i])[j];
        after[l'][t'] == if SlotDone(i, j, li, ti + 1) then RemoveFirst(t', store[l'][t'], key) else store[l'][t']
    {
      if i == li && j == ti {
        assert before[l][t] == store[l][t];
      } else {
        assert Levels[i] != l || TierNames(Levels[i])[j] != t;
        assert SlotDone(i, j, li, ti + 1) == SlotDone(i, j, li, ti);
      }
    }
  }

  /** Finishing level `li` is starting level `li + 1`. */
  lemma NextLevel(current: Store, store: Store, key: string, li: nat)
    requires li < |Levels|
    requires PartlyRemoved(current, store, key, li, 11)
    ensures PartlyRemoved(current, store, key, li + 1, 0)
  {
    assert forall i, j :: 0 <= j < 11 ==> SlotDone(i, j, li, 11) == SlotDone(i, j, li + 1, 0);
  }

  // ---------------------------------------------------------------------
  // Counts

  /** The length of a list, or 0 when it is missing. */
  function ListLength(store: Store, level: string, tier: string): nat
  {
    if level in store && tier in store[level] then |store[level][tier]| else 0
  }

  /** `getTierStats(tierData)`: for every schema list, its length. */
  function GetTierStats(store: Store): (stats: map<string, map<string, nat>>)
    ensures stats.Keys == {"14", "14+"}
    ensures forall l :: l in stats ==> stats[l].Keys == TierSet(l)
    ensures forall l, t :: l in stats && t in stats[l] && l in store && t in store[l] ==> stats[l][t] == |store[l][t]|
    ensures forall l, t :: l in stats && t in stats[l] && !(l in store && t in store[l]) ==> stats[l][t] == 0
  {
    map l | l in {"14", "14+"} :: LevelStats(store, l)
  }

  /** The counts of one level: for each of its tiers, the list's length. */
  function LevelStats(store: Store, level: string): (stats: map<string, nat>)
    ensures stats.Keys == TierSet(level)
    ensures forall t :: t in stats ==> stats[t] == ListLength(store, level, t)
  {
    map t | t in TierSet(level) :: ListLength(store, level, t)
  }
}
