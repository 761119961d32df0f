/** The merge and recommendation engine of src/utils/recommender.js: joining
    the song catalog, the fit-difficulty statistics, the player's records and
    the tier store into one record per Master / Re:Master chart of level `14`
    or `14+`, then grouping, filtering, sorting and summarising those records
    against a target achievement. */
module Recommender {
  import opened Wrappers
  import opened JsText
  import opened TierManager
  import opened SeqFilter
  import opened StableSort

  // ---------------------------------------------------------------------
  // Targets

  /** The preset target achievements, lowest first. */
  const TargetThresholds: seq<real> := [100.5, 100.7, 100.8, 100.9]

  /** The target `generateRecommendations` and `getOverallStats` use when
      the caller gives none. */
  const DefaultTarget: real := 100.7

  /** The target `generateBirdPlusRecommendations` uses when the caller gives
      none: the "bird plus" rank. */
  const BirdPlusTarget: real := 100.5

  /** The display name of each preset, in the same order; the lowest one is
      the "bird plus" rank, written with full-width parentheses. */
  const TargetNames: seq<string> :=
    ["100.5%\U{FF08}\U{9E1F}\U{52A0}\U{FF09}", "100.7%", "100.8%", "100.9%"]

  /** `getTargetName(threshold)`: the name of the highest preset the
      threshold reaches, or of the lowest preset when it reaches none. */
  function GetTargetName(threshold: real): (name: string)
    ensures name in TargetNames
    ensures forall i :: 0 <= i < 4 && name == TargetNames[i] ==>
      && (i == 0 || TargetThresholds[i] <= threshold)
      && (i == 3 || threshold < TargetThresholds[i + 1])
  {
    if threshold >= 100.9 then "100.9%"
    else if threshold >= 100.8 then "100.8%"
    else if threshold >= 100.7 then "100.7%"
    else "100.5%\U{FF08}\U{9E1F}\U{52A0}\U{FF09}"
  }

  // ---------------------------------------------------------------------
  // Inputs

  /** A JSON number property that may be missing or `null`. */
  datatype Field = Missing | Null | Value(x: real)

  /** `f || null` for a number property: the value when it is truthy. */
  function TruthyValue(f: Field): (r: Option<real>)
    ensures r.Some? <==> f.Value? && f.x != 0.0
    ensures r.Some? ==> r.value == f.x
  {
    if f.Value? && f.x != 0.0 then Some(f.x) else None
  }

  /** One element of a song's statistics array: a falsy element, or an
      object with (possibly missing) `fit_diff` and `avg`. */
  datatype StatSlot = Blank | Stat(fitDiff: Field, avg: Field)

  /** The per-chart part of a player record. */
  datatype Score = Score(achievements: real, dxScore: int, fc: string, fs: string, rate: string, ra: int)

  /** A player record: the chart it is for and the score. */
  datatype PlayRecord = PlayRecord(songId: int, levelIndex: int, score: Score)

  /** A catalog song: its id as text, and per difficulty slot its official
      constant `ds` and level label. */
  datatype Song = Song(id: string, title: string, songType: string, ds: seq<real>, level: seq<string>)

  /** A merged chart record. */
  datatype MergedChart = MergedChart(
    id: JsNumber, title: string, songType: string, ds: real, level: string,
    diffIndex: int, diffLabel: string, fitDiff: Option<real>, avgAchievement: Option<real>,
    record: Option<Score>, tier: Option<TierInfo>)

  // ---------------------------------------------------------------------
  // Lookup tables built by mergeData

  /** Whether a statistics element goes into the table: a truthy element
      whose `fit_diff` is not undefined. */
  predicate KeptStat(slot: StatSlot)
  {
    slot.Stat? && !slot.fitDiff.Missing?
  }

  /** The table of one song's statistics, by difficulty index. */
  function SlotTable(diffs: seq<StatSlot>): map<int, StatSlot>
  {
    if diffs == [] then map[]
    else
      var n := |diffs| - 1;
      var t := SlotTable(diffs[..n]);
      if KeptStat(diffs[n]) then t[n := diffs[n]] else t
  }

  /** `fitDiffMap`: song id text -> difficulty index -> statistics, built
      from the entries of `chartStats.charts` in order. */
  function StatsTable(entries: seq<(string, seq<StatSlot>)>): map<string, map<int, StatSlot>>
  {
    if entries == [] then map[]
    else
      var n := |entries| - 1;
      StatsTable(entries[..n])[entries[n].0 := SlotTable(entries[n].1)]
  }

  /** The template `${songId}_${levelIndex}` with the song id printed. */
  function RecordKey(songIdText: string, levelIndex: int): string
  {
    songIdText + "_" + IntToString(levelIndex)
  }

  function RecordKeyOf(r: PlayRecord): string
  {
    RecordKey(IntToString(r.songId), r.levelIndex)
  }

  /** Items under their keys, later items overwriting earlier ones. */
  function Keyed<T>(items: seq<T>, keyOf: T -> string): map<string, T>
  {
    if items == [] then map[]
    else
      var n := |items| - 1;
      Keyed(items[..n], keyOf)[keyOf(items[n]) := items[n]]
  }

  /** `recordMap`: record key -> record, later records overwriting earlier. */
  function RecordTable(records: seq<PlayRecord>): map<string, PlayRecord>
  {
    Keyed(records, RecordKeyOf)
  }

  // ---------------------------------------------------------------------
  // The merge

  /** The two difficulty slots that are merged, with their labels. */
  const Difficulties: seq<(int, string)> := [(3, "Master"), (4, "Re:Master")]

  /** Whether a slot of a song is merged: its `ds` is present and non-zero
      and its level label is exactly `14` or `14+`. */
  predicate Eligible(song: Song, diffIndex: int)
  {
    && 0 <= diffIndex < |song.ds| && song.ds[diffIndex] != 0.0
    && diffIndex < |song.level| && (song.level[diffIndex] == "14" || song.level[diffIndex] == "14+")
  }

  /** The merged record of one slot of a song, if the slot is merged. */
  function SlotChart(song: Song, stats: map<string, map<int, StatSlot>>, records: map<string, PlayRecord>,
                     tiers: Store, diffIndex: int, diffLabel: string): (r: Option<MergedChart>)
    ensures r.Some? <==> Eligible(song, diffIndex)
  {
    if !Eligible(song, diffIndex) then None
    else
      var songId := ParseInt(song.id);
      var idText := NumberText(songId);
      var level := song.level[diffIndex];
      var fitData := if idText in stats && diffIndex in stats[idText] then stats[idText][diffIndex] else Blank;
      var recordKey := RecordKey(idText, diffIndex);
      var levelKey := if level == "14+" then "14+" else "14";
      var tier := Lookup(tiers, LevelPairs(levelKey), FormatKey(idText, diffIndex));
      Some(MergedChart(
        songId, song.title, song.songType, song.ds[diffIndex], level, diffIndex, diffLabel,
        if fitData.Stat? then TruthyValue(fitData.fitDiff) else None,
        if fitData.Stat? then TruthyValue(fitData.avg) else None,
        if recordKey in records then Some(records[recordKey].score) else None,
        tier))
  }

  function AsSeq<T>(o: Option<T>): seq<T>
  {
    if o.Some? then [o.value] else []
  }

  /** The merged records of the given slots of one song, in slot order. */
  function SlotCharts(song: Song, stats: map<string, map<int, StatSlot>>, records: map<string, PlayRecord>,
                      tiers: Store, slots: seq<(int, string)>): seq<MergedChart>
  {
    if slots == [] then []
    else
      var n := |slots| - 1;
      SlotCharts(song, stats, records, tiers, slots[..n])
        + AsSeq(SlotChart(song, stats, records, tiers, slots[n].0, slots[n].1))
  }

  /** One more slot adds that slot's merged record, if any, at the end. */
  lemma SlotChartsSnoc(song: Song, stats: map<string, map<int, StatSlot>>, records: map<string, PlayRecord>,
                       tiers: Store, slots: seq<(int, string)>, d: nat)
    requires d < |slots|
    ensures SlotCharts(song, stats, records, tiers, slots[..d + 1])
      == SlotCharts(song, stats, records, tiers, slots[..d]) + AsSeq(SlotChart(song, stats, records, tiers, slots[d].0, slots[d].1))
  {
    assert slots[..d + 1][..d] == slots[..d];
  }

  /** The merged records of one song: Master, then Re:Master. */
  function SongOutput(stats: map<string, map<int, StatSlot>>, records: map<string, PlayRecord>,
                      tiers: Store): Song -> seq<MergedChart>
  {
    (song: Song) => SlotCharts(song, stats, records, tiers, Difficulties)
  }

  /** The merged records of a catalog, song by song. */
  function MergeSpec(songs: seq<Song>, stats: map<string, map<int, StatSlot>>, records: map<string, PlayRecord>,
                     tiers: Store): seq<MergedChart>
  {
    FlatMap(songs, SongOutput(stats, records, tiers))
  }

  /** `mergeData(musicData, chartStats, playerRecords, tierData)`, with the
      statistics given as the entries of `chartStats.charts` and the player
      records as a list (both empty when absent). */
  method MergeData(songs: seq<Song>, statsEntries: seq<(string, seq<StatSlot>)>, records: seq<PlayRecord>,
                   tiers: Store) returns (result: seq<MergedChart>)
    ensures result == MergeSpec(songs, StatsTable(statsEntries), RecordTable(records), tiers)
  {
    var fitDiffMap := BuildFitDiffMap(statsEntries);
    var recordMap := BuildRecordMap(records);
    result := [];
    for s := 0 to |songs|
      invariant result == MergeSpec(songs[..s], fitDiffMap, recordMap, tiers)
    {
      var charts := MergeSong(songs[s], fitDiffMap, recordMap, tiers);
      result := result + charts;
      assert songs[..s + 1][..s] == songs[..s];
    }
    assert songs[..|songs|] == songs;
  }

  /** The first loop of `mergeData`: one table per statistics entry, each
      holding the elements whose `fit_diff` is defined. */
  method BuildFitDiffMap(statsEntries: seq<(string, seq<StatSlot>)>) returns (fitDiffMap: map<string, map<int, StatSlot>>)
    ensures fitDiffMap == StatsTable(statsEntries)
  {
    fitDiffMap := map[];
    for e := 0 to |statsEntries|
      invariant fitDiffMap == StatsTable(statsEntries[..e])
    {
      var (songKey, diffs) := statsEntries[e];
      var slots: map<int, StatSlot> := map[];
      for i := 0 to |diffs|
        invariant slots == SlotTable(diffs[..i])
      {
        assert diffs[..i + 1][..i] == diffs[..i];
        if KeptStat(diffs[i]) {
          slots := slots[i := diffs[i]];
        }
      }
      assert diffs[..|diffs|] == diffs;
      assert statsEntries[..e + 1][..e] == statsEntries[..e];
      fitDiffMap := fitDiffMap[songKey := slots];
    }
    assert statsEntries[..|statsEntries|] == statsEntries;
  }

  /** The second loop of `mergeData`: each record under its key. */
  method BuildRecordMap(records: seq<PlayRecord>) returns (recordMap: map<string, PlayRecord>)
    ensures recordMap == RecordTable(records)
  {
    recordMap := map[];
    for k := 0 to |records|
      invariant recordMap == Keyed(records[..k], RecordKeyOf)
    {
      assert records[..k + 1][..k] == records[..k];
      recordMap := recordMap[RecordKeyOf(records[k]) := records[k]];
    }
    assert records[..|records|] == records;
  }

  /** The per-song callback of `mergeData`: the song's Master and Re:Master
      slots in turn. */
  method MergeSong(song: Song, fitDiffMap: map<string, map<int, StatSlot>>, recordMap: map<string, PlayRecord>,
                   tiers: Store) returns (charts: seq<MergedChart>)
    ensures charts == SlotCharts(song, fitDiffMap, recordMap, tiers, Difficulties)
  {
    charts := [];
    for d := 0 to 2
      invariant charts == SlotCharts(song, fitDiffMap, recordMap, tiers, Difficulties[..d])
    {
      var (diffIndex, diffLabel) := Difficulties[d];
      var chart := MergeSlot(song, fitDiffMap, recordMap, tiers, diffIndex, diffLabel);
      SlotChartsSnoc(song, fitDiffMap, recordMap, tiers, Difficulties, d);
      charts := charts + chart;
    }
    assert Difficulties[..2] == Difficulties;
  }

  /** The body of the per-slot callback: the merged record of one slot, or
      nothing when the slot is skipped. */
  method MergeSlot(song: Song, fitDiffMap: map<string, map<int, StatSlot>>, recordMap: map<string, PlayRecord>,
                   tiers: Store, diffIndex: int, diffLabel: string) returns (chart: seq<MergedChart>)
    requires diffIndex == 3 || diffIndex == 4
    ensures chart == AsSeq(SlotChart(song, fitDiffMap, recordMap, tiers, diffIndex, diffLabel))
  {
    chart := [];
    if diffIndex >= |song.ds| || song.ds[diffIndex] == 0.0 || diffIndex >= |song.level| || song.level[diffIndex] == "" {
      return;
    }
    var ds, level := song.ds[diffIndex], song.level[diffIndex];
    if level != "14" && level != "14+" {
      return;
    }
    var songId := ParseInt(song.id);
    var idText := NumberText(songId);
    var fitDiffData := Blank;
    if idText in fitDiffMap && diffIndex in fitDiffMap[idText] {
      fitDiffData := fitDiffMap[idText][diffIndex];
    }
    var recordKey := RecordKey(idText, diffIndex);
    var levelKey := if level == "14+" then "14+" else "14";
    var chartKey := FormatKey(idText, diffIndex);
    var tierInfo := FindInLevel(tiers, levelKey, chartKey);
    var fitDiff := if fitDiffData.Stat? then TruthyValue(fitDiffData.fitDiff) else None;
    var avg := if fitDiffData.Stat? then TruthyValue(fitDiffData.avg) else None;
    var record := if recordKey in recordMap then Some(recordMap[recordKey].score) else None;
    chart := [MergedChart(songId, song.title, song.songType, ds, level, diffIndex, diffLabel, fitDiff, avg, record, tierInfo)];
  }

  /** The tier loop of `mergeData`: the tiers of one level in order, skipping
      missing lists and stopping at the first list that holds the chart. */
  method FindInLevel(tiers: Store, levelKey: string, chartKey: string) returns (tierInfo: Option<TierInfo>)
    ensures tierInfo == Lookup(tiers, LevelPairs(levelKey), chartKey)
  {
    tierInfo := None;
    var names := TierNames(levelKey);
    var pairs := LevelPairs(levelKey);
    var i := 0;
    while i < 11
      invariant 0 <= i <= 11
      invariant forall j :: 0 <= j < i ==> !Member(tiers, levelKey, names[j], chartKey)
    {
      var tier := names[i];
      if levelKey in tiers && tier in tiers[levelKey] {
        var items := tiers[levelKey][tier];
        var found := FindEntry(tier, items, chartKey);
        if found.Some? {
          var item := items[found.value];
          if tier == "range" {
            tierInfo := Some(TierInfo(levelKey, tier, Some(item.min), Some(item.max)));
          } else {
            tierInfo := Some(TierInfo(levelKey, tier, None, None));
          }
          assert FirstMember(tiers, pairs, chartKey, i);
          LookupAt(tiers, pairs, chartKey, i);
          return;
        }
      }
      i := i + 1;
    }
  }

  /** A lookup reports the first list that holds the chart. */
  lemma LookupAt(store: Store, pairs: seq<(string, string)>, key: string, k: nat)
    requires FirstMember(store, pairs, key, k)
    ensures Lookup(store, pairs, key) == Some(EntryInfo(store, pairs[k].0, pairs[k].1, key))
  {
    var r := Lookup(store, pairs, key);
    var m: nat :| FirstMember(store, pairs, key, m) && r.value == EntryInfo(store, pairs[m].0, pairs[m].1, key);
    assert m == k;
  }

  // ---------------------------------------------------------------------
  // Sort keys

  /** `tierToValue(name)`: `13+` and `14` are -1 whatever the level; other
      names are read with `parseInt`, and what does not parse (`range`,
      `emoji`, an absent name) is 99. */
  function TierValue(name: Option<string>): int
  {
    if name == Some("13+") || name == Some("14") then -1
    else if name.None? then 99
    else
      match ParseInt(name.value)
      case Finite(n) => n
      case NaN => 99
  }

  /** `c.fitDiff || c.ds || 99`: the fitted constant, else the official one,
      else 99. */
  function DiffKey(c: MergedChart): (d: real)
    ensures c.fitDiff.Some? && c.fitDiff.value != 0.0 ==> d == c.fitDiff.value
    ensures (c.fitDiff.None? || c.fitDiff.value == 0.0) && c.ds != 0.0 ==> d == c.ds
    ensures d != 0.0
  {
    if c.fitDiff.Some? && c.fitDiff.value != 0.0 then c.fitDiff.value
    else if c.ds != 0.0 then c.ds
    else 99.0
  }

  /** `c.tier?.rangeMin`. */
  function RangeMin(c: MergedChart): Option<string>
  {
    if c.tier.Some? then c.tier.value.rangeMin else None
  }

  /** `c.tier?.tier`. */
  function TierName(c: MergedChart): Option<string>
  {
    if c.tier.Some? then Some(c.tier.value.tier) else None
  }

  /** The order of a fixed tier's bucket: by difficulty alone. */
  function FixedKey(c: MergedChart): SortKey
  {
    SortKey(0, DiffKey(c))
  }

  /** The order of the `range` bucket: by the lower bound, then difficulty. */
  function RangeKey(c: MergedChart): SortKey
  {
    SortKey(TierValue(RangeMin(c)), DiffKey(c))
  }

  /** The tier value the flat view sorts by: the lower bound for `range`,
      the tier's own value otherwise. */
  function EffectiveTierValue(c: MergedChart): int
  {
    if TierName(c) == Some("range") then TierValue(RangeMin(c)) else TierValue(TierName(c))
  }

  /** The order of the flat view: by effective tier value, then difficulty. */
  function BirdKey(c: MergedChart): SortKey
  {
    SortKey(EffectiveTierValue(c), DiffKey(c))
  }

  // ---------------------------------------------------------------------
  // Filters and aggregates

  function LevelIs(level: string): MergedChart -> bool
  {
    (c: MergedChart) => c.level == level
  }

  function TierIs(tier: string): MergedChart -> bool
  {
    (c: MergedChart) => TierName(c) == Some(tier)
  }

  /** Not yet at the target: no record, or an achievement below it. */
  function Pending(threshold: real): MergedChart -> bool
  {
    (c: MergedChart) => c.record.None? || c.record.value.achievements < threshold
  }

  /** At the target: a record with an achievement reaching it. */
  function Reached(threshold: real): MergedChart -> bool
  {
    (c: MergedChart) => c.record.Some? && c.record.value.achievements >= threshold
  }

  function HasRecord(): MergedChart -> bool
  {
    (c: MergedChart) => c.record.Some?
  }

  /** The achievements of the charts with a record, added up. */
  function SumAchievements(s: seq<MergedChart>): real
  {
    if s == [] then 0.0
    else
      var c := s[|s| - 1];
      SumAchievements(s[..|s| - 1]) + (if c.record.Some? then c.record.value.achievements else 0.0)
  }

  /** The mean achievement over the charts with a record, `null` when none
      has one. */
  function Average(s: seq<MergedChart>): Option<real>
  {
    var withRecord := Filter(s, HasRecord());
    if |withRecord| > 0 then Some(SumAchievements(withRecord) / |withRecord| as real) else None
  }

  /** The completion percentage, 0 for no charts. */
  function Progress(completed: nat, total: nat): real
  {
    if total > 0 then completed as real / total as real * 100.0 else 0.0
  }

  // ---------------------------------------------------------------------
  // generateRecommendations

  /** One tier's summary: how many charts it holds, how many reach the
      target, their mean achievement and the charts still to play. */
  datatype Bucket = Bucket(total: nat, completed: int, avgAchievement: Option<real>, recommendations: seq<MergedChart>)

  /** The summary of one tier of one level. */
  function TierBucket(songs: seq<MergedChart>, threshold: real, level: string, tier: string): Bucket
  {
    var tierSongs := Filter(Filter(songs, LevelIs(level)), TierIs(tier));
    var untargeted := Filter(tierSongs, Pending(threshold));
    var sorted := if tier == "range" then SortByKey(untargeted, RangeKey) else SortByKey(untargeted, FixedKey);
    Bucket(|tierSongs|, |tierSongs| - |sorted|, Average(tierSongs), sorted)
  }

  /** Every tier of the level has its summary in `result`. */
  predicate BucketsDone(result: map<string, map<string, Bucket>>, songs: seq<MergedChart>, threshold: real, level: string)
  {
    && level in result
    && result[level].Keys == TierSet(level)
    && forall t :: t in result[level] ==> result[level][t] == TierBucket(songs, threshold, level, t)
  }

  /** `generateRecommendations(songs, threshold)`: for each level and each of
      its tiers, that tier's summary. */
  method GenerateRecommendations(songs: seq<MergedChart>, threshold: real)
    returns (result: map<string, map<string, Bucket>>)
    ensures result.Keys == {"14", "14+"}
    ensures forall l :: l in result ==> BucketsDone(result, songs, threshold, l)
  {
    result := map["14" := map[], "14+" := map[]];
    for li := 0 to 2
      invariant result.Keys == {"14", "14+"}
      invariant li >= 1 ==> BucketsDone(result, songs, threshold, "14")
      invariant li >= 2 ==> BucketsDone(result, songs, threshold, "14+")
    {
      var levelKey := Levels[li];
      var buckets := LevelBuckets(songs, threshold, levelKey);
      result := result[levelKey := buckets];
    }
  }

  /** One pass of the level loop of `generateRecommendations`: the summary
      of every tier of the level. */
  method LevelBuckets(songs: seq<MergedChart>, threshold: real, levelKey: string)
    returns (buckets: map<string, Bucket>)
    ensures buckets.Keys == TierSet(levelKey)
    ensures forall t :: t in buckets ==> buckets[t] == TierBucket(songs, threshold, levelKey, t)
  {
    var levelSongs := Filter(songs, LevelIs(levelKey));
    var names := TierNames(levelKey);
    buckets := map[];
    for ti := 0 to 11
      invariant buckets.Keys == set t | t in names[..ti]
      invariant forall t :: t in buckets ==> buckets[t] == TierBucket(songs, threshold, levelKey, t)
    {
      assert names[..ti + 1] == names[..ti] + [names[ti]];
      var tier := names[ti];
      var tierSongs := Filter(levelSongs, TierIs(tier));
      var untargeted := Filter(tierSongs, Pending(threshold));
      if tier == "range" {
        untargeted := SortByKey(untargeted, RangeKey);
      } else {
        untargeted := SortByKey(untargeted, FixedKey);
      }
      var avgAchievement := Average(tierSongs);
      var bucket := Bucket(|tierSongs|, |tierSongs| - |untargeted|, avgAchievement, untargeted);
      assert bucket == TierBucket(songs, threshold, levelKey, tier);
      buckets := buckets[tier := bucket];
    }
    assert names[..11] == names;
  }

  // ---------------------------------------------------------------------
  // getOverallStats

  datatype OverallStats = OverallStats(total: nat, completed: nat, uncompleted: int, progress: real, avgAchievement: Option<real>)

  /** `getOverallStats(songs, threshold)`: one counting pass. */
  method GetOverallStats(songs: seq<MergedChart>, threshold: real) returns (stats: OverallStats)
    ensures stats.total == |songs|
    ensures stats.completed == CountIf(songs, Reached(threshold))
    ensures stats.uncompleted == stats.total - stats.completed
    ensures stats.progress == Progress(stats.completed, stats.total)
    ensures stats.avgAchievement == Average(songs)
  {
    var total, completed, hasRecord := 0, 0, 0;
    var totalAchievement := 0.0;
    for i := 0 to |songs|
      invariant total == i
      invariant completed == CountIf(songs[..i], Reached(threshold))
      invariant hasRecord == CountIf(songs[..i], HasRecord())
      invariant totalAchievement == SumAchievements(songs[..i])
    {
      assert songs[..i + 1][..i] == songs[..i];
      var song := songs[i];
      total := total + 1;
      if song.record.Some? {
        hasRecord := hasRecord + 1;
        totalAchievement := totalAchievement + song.record.value.achievements;
        if song.record.value.achievements >= threshold {
          completed := completed + 1;
        }
      }
    }
    assert songs[..|songs|] == songs;
    SumOfRecorded(songs);
    var avg := if hasRecord > 0 then Some(totalAchievement / hasRecord as real) else None;
    stats := OverallStats(total, completed, total - completed, Progress(completed, total), avg);
  }

  /** Summing over the charts with a record adds up the same achievements. */
  lemma {:induction false} SumOfRecorded(s: seq<MergedChart>)
    ensures SumAchievements(Filter(s, HasRecord())) == SumAchievements(s)
    decreases |s|
  {
    if s != [] {
      var init, c := s[..|s| - 1], s[|s| - 1];
      SumOfRecorded(init);
      if c.record.Some? {
        var f := Filter(init, HasRecord()) + [c];
        assert f[..|f| - 1] == Filter(init, HasRecord());
      } else {
        assert Filter(init, HasRecord()) + [] == Filter(init, HasRecord());
      }
    }
  }

  // ---------------------------------------------------------------------
  // generateBirdPlusRecommendations

  /** One level's summary in the flat view. */
  datatype LevelSummary = LevelSummary(
    total: nat, completed: nat, uncompleted: int, progress: real,
    avgAchievement: Option<real>, recommendations: seq<MergedChart>)

  /** The flat summary of one level; a mean achievement of 0 reads as none. */
  function BirdPlusLevel(songs: seq<MergedChart>, threshold: real, level: string): LevelSummary
  {
    var levelSongs := Filter(songs, LevelIs(level));
    var untargeted := SortByKey(Filter(levelSongs, Pending(threshold)), BirdKey);
    var total := |levelSongs|;
    var completed := |Filter(levelSongs, Reached(threshold))|;
    var avg := Average(levelSongs);
    LevelSummary(total, completed, total - completed, Progress(completed, total),
      if avg.Some? && avg.value != 0.0 then avg else None, untargeted)
  }

  /** `generateBirdPlusRecommendations(songs, threshold)`: per level, the
      charts still to play in tier order and the level's summary. */
  method GenerateBirdPlusRecommendations(songs: seq<MergedChart>, threshold: real)
    returns (result: map<string, LevelSummary>)
    ensures result.Keys == {"14", "14+"}
    ensures forall l :: l in result ==> result[l] == BirdPlusLevel(songs, threshold, l)
  {
    result := map[];
    for li := 0 to 2
      invariant result.Keys == set l | l in Levels[..li]
      invariant forall l :: l in result ==> result[l] == BirdPlusLevel(songs, threshold, l)
    {
      var levelKey := Levels[li];
      var levelSongs := Filter(songs, LevelIs(levelKey));
      var untargeted := Filter(levelSongs, Pending(threshold));
      untargeted := SortByKey(untargeted, BirdKey);
      var total := |levelSongs|;
      var completed := |Filter(levelSongs, Reached(threshold))|;
      var avgAchievement := Average(levelSongs);
      var shown := if avgAchievement.Some? && avgAchievement.value != 0.0 then avgAchievement else None;
      result := result[levelKey := LevelSummary(total, completed, total - completed,
        Progress(completed, total), shown, untargeted)];
    }
    assert Levels[..2] == Levels;
  }
}
