/** Laws of the merge in src/utils/recommender.js: which charts are merged
    and in what order, how the statistics, records and tiers are joined, and
    how the tier value orders the tier names. */
module MergeLaws {
  import opened Wrappers
  import opened JsText
  import opened TierManager
  import opened SeqFilter
  import opened Recommender

  // ---------------------------------------------------------------------
  // Targets and tier values

  /** Each preset threshold is named by its own name. */
  lemma TargetNamesOfPresets()
    ensures forall i :: 0 <= i < 4 ==> GetTargetName(TargetThresholds[i]) == TargetNames[i]
  {
  }

  /** `tierToValue` on the tier names of a level: the floor tier is -1, tier
      `k` is `k`, and `range` and `emoji` are 99. */
  lemma TierValueOfNames(level: string, i: nat)
    requires i < 11
    ensures TierValue(Some(TierNames(level)[i])) == if i < 9 then i - 1 else 99
  {
    var name := TierNames(level)[i];
    if 1 <= i < 9 {
      DigitName(level, i);
      ParseIntOfNat(i - 1);
    } else if i >= 9 {
      WordIsNaN(name);
    }
  }

  /** Tiers `0` to `7` are named by their decimal digit. */
  lemma DigitName(level: string, i: nat)
    requires 1 <= i < 9
    ensures TierNames(level)[i] == NatToString(i - 1)
  {
    assert TierNames(level)[1..9][i - 1] == TierNames(level)[i];
  }

  /** A word starting with a lower-case letter does not parse as a number. */
  lemma WordIsNaN(s: string)
    requires |s| >= 1 && 'a' <= s[0] <= 'z'
    ensures ParseInt(s) == NaN
  {
    assert !IsJsSpace(s[0]);
    assert TrimStart(s) == s;
    assert !IsRadixDigit(s[0], 10);
    assert ParseSigned(s) == ParseUnsigned(s) == LeadingValue(s, 10);
  }

  /** Along the tier names of a level, up to `7`, the tier value strictly
      increases; a chart without a tier sorts with `range` and `emoji`,
      after all of them. */
  lemma TierValueFollowsNames(level: string, i: nat, j: nat)
    requires i < j < 11
    ensures j < 9 ==> TierValue(Some(TierNames(level)[i])) < TierValue(Some(TierNames(level)[j]))
    ensures i < 9 <= j ==> TierValue(Some(TierNames(level)[i])) < TierValue(Some(TierNames(level)[j]))
    ensures TierValue(None) == 99 && TierValue(Some(TierNames(level)[j])) <= TierValue(None)
  {
    TierValueOfNames(level, i);
    TierValueOfNames(level, j);
  }

  // ---------------------------------------------------------------------
  // Lookups

  /** A lookup over two runs of lists reports from the first run when it
      holds the chart, and from the second otherwise. */
  lemma LookupAppend(store: Store, a: seq<(string, string)>, b: seq<(string, string)>, key: string)
    ensures Lookup(store, a + b, key)
      == if Lookup(store, a, key).Some? then Lookup(store, a, key) else Lookup(store, b, key)
  {
    var ab := a + b;
    if Lookup(store, a, key).Some? {
      var k: nat :| FirstMember(store, a, key, k) && Lookup(store, a, key).value == EntryInfo(store, a[k].0, a[k].1, key);
      assert FirstMember(store, ab, key, k) by {
        assert ab[k] == a[k];
        forall j | 0 <= j < k ensures !Member(store, ab[j].0, ab[j].1, key) {
          assert ab[j] == a[j];
        }
      }
      LookupAt(store, ab, key, k);
    } else if Lookup(store, b, key).Some? {
      var k: nat :| FirstMember(store, b, key, k) && Lookup(store, b, key).value == EntryInfo(store, b[k].0, b[k].1, key);
      assert FirstMember(store, ab, key, |a| + k) by {
        assert ab[|a| + k] == b[k];
        forall j | 0 <= j < |a| + k ensures !Member(store, ab[j].0, ab[j].1, key) {
          if j < |a| {
            assert ab[j] == a[j];
          } else {
            assert ab[j] == b[j - |a|];
          }
        }
      }
      LookupAt(store, ab, key, |a| + k);
    } else {
      forall j | 0 <= j < |ab| ensures !Member(store, ab[j].0, ab[j].1, key) {
        if j < |a| {
          assert ab[j] == a[j];
        } else {
          assert ab[j] == b[j - |a|];
        }
      }
    }
  }

  /** The level that is not `level`, of the two. */
  function OtherLevel(level: string): string
  {
    if level == "14" then "14+" else "14"
  }

  /** Searching only its own level agrees with `getChartTier` whenever no
      list of the other level holds the chart. */
  lemma OwnLevelLookup(store: Store, level: string, songId: int, diffIndex: int)
    requires level == "14" || level == "14+"
    requires forall t :: !Member(store, OtherLevel(level), t, MakeChartKey(songId, diffIndex))
    ensures Lookup(store, LevelPairs(level), MakeChartKey(songId, diffIndex)) == GetChartTier(songId, diffIndex, store)
  {
    var key := MakeChartKey(songId, diffIndex);
    LookupAppend(store, LevelPairs("14"), LevelPairs("14+"), key);
    var other := LevelPairs(OtherLevel(level));
    assert forall j :: 0 <= j < |other| ==> !Member(store, other[j].0, other[j].1, key);
  }

  // ---------------------------------------------------------------------
  // The lookup tables

  /** The statistics table of one song holds the elements whose `fit_diff`
      is defined, under their index. */
  lemma {:induction false} SlotTableLookup(diffs: seq<StatSlot>, k: int)
    ensures k in SlotTable(diffs) <==> 0 <= k < |diffs| && KeptStat(diffs[k])
    ensures k in SlotTable(diffs) ==> SlotTable(diffs)[k] == diffs[k]
    decreases |diffs|
  {
    if diffs != [] {
      SlotTableLookup(diffs[..|diffs| - 1], k);
    }
  }

  /** `i` is the last position of `entries` with the song id `key`. */
  predicate LastEntry(entries: seq<(string, seq<StatSlot>)>, key: string, i: nat)
  {
    i < |entries| && entries[i].0 == key && forall j :: i < j < |entries| ==> entries[j].0 != key
  }

  /** `fitDiffMap` has a song exactly when an entry names it. */
  lemma {:induction false} StatsTableKeys(entries: seq<(string, seq<StatSlot>)>, key: string)
    ensures key in StatsTable(entries) <==> exists i :: 0 <= i < |entries| && entries[i].0 == key
    decreases |entries|
  {
    if entries != [] {
      var n := |entries| - 1;
      var init := entries[..n];
      StatsTableKeys(init, key);
      if key in StatsTable(init) {
        var i :| 0 <= i < |init| && init[i].0 == key;
        assert entries[i] == init[i];
      }
    }
  }

  /** For a song named by some entry, `fitDiffMap` holds the table of the
      last such entry: later entries overwrite earlier ones. */
  lemma {:induction false} StatsTableLast(entries: seq<(string, seq<StatSlot>)>, key: string, i: nat)
    requires LastEntry(entries, key, i)
    ensures key in StatsTable(entries) && StatsTable(entries)[key] == SlotTable(entries[i].1)
    decreases |entries|
  {
    var n := |entries| - 1;
    if i < n {
      StatsTableLast(entries[..n], key, i);
    }
  }

  /** `i` is the last position of `items` whose key is `key`. */
  predicate LastKeyed<T>(items: seq<T>, keyOf: T -> string, key: string, i: nat)
  {
    i < |items| && keyOf(items[i]) == key && forall j :: i < j < |items| ==> keyOf(items[j]) != key
  }

  /** A keyed table has a key exactly when an item carries it. */
  lemma {:induction false} KeyedKeys<T>(items: seq<T>, keyOf: T -> string, key: string)
    ensures key in Keyed(items, keyOf) <==> exists i :: 0 <= i < |items| && keyOf(items[i]) == key
    decreases |items|
  {
    if items != [] {
      var n := |items| - 1;
      var init := items[..n];
      KeyedKeys(init, keyOf, key);
      if key in Keyed(init, keyOf) {
        var i :| 0 <= i < |init| && keyOf(init[i]) == key;
        assert items[i] == init[i];
      }
    }
  }

  /** For a key some item carries, a keyed table holds the last such item:
      later items overwrite earlier ones. */
  lemma {:induction false} KeyedLast<T>(items: seq<T>, keyOf: T -> string, key: string, i: nat)
    requires LastKeyed(items, keyOf, key, i)
    ensures key in Keyed(items, keyOf) && Keyed(items, keyOf)[key] == items[i]
    decreases |items|
  {
    var n := |items| - 1;
    if i < n {
      KeyedLast(items[..n], keyOf, key, i);
    }
  }

  /** Printed integers hold no underscore. */
  lemma NoUnderscore(n: int)
    ensures '_' !in IntToString(n)
  {
    var s := NatToString(if n < 0 then -n else n);
    forall i | 0 <= i < |s| ensures s[i] != '_' {
      assert IsRadixDigit(s[i], 10);
    }
  }

  /** The record key names the song and the difficulty: two records share a
      key exactly when they are for the same chart. */
  lemma RecordKeyInjective(songId: int, levelIndex: int, otherId: int, otherIndex: int)
    ensures RecordKey(IntToString(songId), levelIndex) == RecordKey(IntToString(otherId), otherIndex)
      <==> songId == otherId && levelIndex == otherIndex
  {
    var a, b := IntToString(songId), IntToString(levelIndex);
    var a', b' := IntToString(otherId), IntToString(otherIndex);
    if RecordKey(a, levelIndex) == RecordKey(a', otherIndex) {
      NoUnderscore(songId);
      NoUnderscore(otherId);
      NoUnderscore(levelIndex);
      NoUnderscore(otherIndex);
      assert RecordKey(a, levelIndex) == a + ['_'] + b;
      assert RecordKey(a', otherIndex) == a' + ['_'] + b';
      SplitAfterPlain(a, '_', b);
      SplitAfterPlain(a', '_', b');
      assert Split(b, '_') == [b] && Split(b', '_') == [b'];
      ParseIntOfInt(songId);
      ParseIntOfInt(otherId);
      ParseIntOfInt(levelIndex);
      ParseIntOfInt(otherIndex);
    }
  }

  /** `parseInt` reads back what `String` prints for any integer. */
  lemma ParseIntOfInt(n: int)
    ensures ParseInt(IntToString(n)) == Finite(n)
  {
    if n >= 0 {
      ParseIntOfNat(n);
    } else {
      var s := NatToString(-n);
      DigitsArePlain(s);
      ParseIntOfNat(-n);
      assert ParseUnsigned(s) == Finite(-n);
      var t := "-" + s;
      assert !IsJsSpace(t[0]);
      assert TrimStart(t) == t;
      assert t[1..] == s;
      assert ParseSigned(t) == Negate(ParseUnsigned(s));
    }
  }

  // ---------------------------------------------------------------------
  // The merge

  /** Merging two runs of songs merges each run, in catalog order. */
  lemma MergeAppend(a: seq<Song>, b: seq<Song>, stats: map<string, map<int, StatSlot>>,
                    records: map<string, PlayRecord>, tiers: Store)
    ensures MergeSpec(a + b, stats, records, tiers) == MergeSpec(a, stats, records, tiers) + MergeSpec(b, stats, records, tiers)
  {
    FlatMapAppend(a, b, SongOutput(stats, records, tiers));
  }

  /** A song contributes its Master chart, then its Re:Master chart, each
      only when that slot is merged. */
  lemma SongCharts(song: Song, stats: map<string, map<int, StatSlot>>, records: map<string, PlayRecord>, tiers: Store)
    ensures MergeSpec([song], stats, records, tiers)
      == AsSeq(SlotChart(song, stats, records, tiers, 3, "Master"))
       + AsSeq(SlotChart(song, stats, records, tiers, 4, "Re:Master"))
  {
    var ds := Difficulties;
    var master := AsSeq(SlotChart(song, stats, records, tiers, 3, "Master"));
    var reMaster := AsSeq(SlotChart(song, stats, records, tiers, 4, "Re:Master"));
    assert SlotCharts(song, stats, records, tiers, ds[..1]) == master by {
      assert ds[..1][..0] == [] && ds[..1][0] == (3, "Master");
      assert [] + master == master;
    }
    assert SlotCharts(song, stats, records, tiers, ds) == master + reMaster by {
      assert ds[..|ds| - 1] == ds[..1] && ds[1] == (4, "Re:Master");
    }
    FlatMapOne(song, SongOutput(stats, records, tiers));
  }

  /** Every merged record comes from a song of the catalog. */
  lemma MergeMembers(songs: seq<Song>, stats: map<string, map<int, StatSlot>>,
                     records: map<string, PlayRecord>, tiers: Store, c: MergedChart)
    ensures c in MergeSpec(songs, stats, records, tiers)
      <==> exists i :: 0 <= i < |songs| && c in MergeSpec([songs[i]], stats, records, tiers)
  {
    var f := SongOutput(stats, records, tiers);
    FlatMapMembers(songs, f, c);
    forall i | 0 <= i < |songs| ensures MergeSpec([songs[i]], stats, records, tiers) == f(songs[i]) {
      FlatMapOne(songs[i], f);
    }
  }

  /** A merged record is a Master or Re:Master chart of level `14` or `14+`
      with a non-zero constant, and its tier, if any, is one of its own
      level's tiers. */
  lemma SlotChartShape(song: Song, stats: map<string, map<int, StatSlot>>, records: map<string, PlayRecord>,
                       tiers: Store, k: nat)
    requires k < 2 && Eligible(song, Difficulties[k].0)
    ensures var c := SlotChart(song, stats, records, tiers, Difficulties[k].0, Difficulties[k].1).value;
      && (c.level == "14" || c.level == "14+") && c.ds != 0.0
      && (c.diffIndex, c.diffLabel) == Difficulties[k]
      && (c.tier.Some? ==> c.tier.value.level == c.level && c.tier.value.tier in TierNames(c.level))
  {
    var (d, diffLabel) := Difficulties[k];
    var c := SlotChart(song, stats, records, tiers, d, diffLabel).value;
    if c.tier.Some? {
      var pairs := LevelPairs(c.level);
      var key := FormatKey(NumberText(ParseInt(song.id)), d);
      assert c.tier == Lookup(tiers, pairs, key);
      var m: nat :| FirstMember(tiers, pairs, key, m) && c.tier.value == EntryInfo(tiers, pairs[m].0, pairs[m].1, key);
      assert pairs[m] == (c.level, TierNames(c.level)[m]);
    }
  }

  /** Every merged record has that shape. */
  lemma MergeShape(songs: seq<Song>, stats: map<string, map<int, StatSlot>>, records: map<string, PlayRecord>,
                   tiers: Store, c: MergedChart)
    requires c in MergeSpec(songs, stats, records, tiers)
    ensures (c.level == "14" || c.level == "14+") && c.ds != 0.0
    ensures (c.diffIndex, c.diffLabel) in Difficulties
    ensures c.tier.Some? ==> c.tier.value.level == c.level && c.tier.value.tier in TierNames(c.level)
  {
    MergeMembers(songs, stats, records, tiers, c);
    var i :| 0 <= i < |songs| && c in MergeSpec([songs[i]], stats, records, tiers);
    var song := songs[i];
    SongCharts(song, stats, records, tiers);
    if c in AsSeq(SlotChart(song, stats, records, tiers, 3, "Master")) {
      SlotChartShape(song, stats, records, tiers, 0);
    } else {
      SlotChartShape(song, stats, records, tiers, 1);
    }
  }

  // ---------------------------------------------------------------------
  // The joins

  /** `fitDiff` of slot `d` of a statistics element list: `fit_diff` when
      it is truthy, else null. */
  function FitOf(diffs: seq<StatSlot>, d: int): Option<real>
  {
    if 0 <= d < |diffs| && diffs[d].Stat? then TruthyValue(diffs[d].fitDiff) else None
  }

  /** `avgAchievement` of slot `d`: `avg` when it is truthy and the element
      was kept, that is, its `fit_diff` is defined; else null. */
  function AvgOf(diffs: seq<StatSlot>, d: int): Option<real>
  {
    if 0 <= d < |diffs| && KeptStat(diffs[d]) then TruthyValue(diffs[d].avg) else None
  }

  /** A song no statistics entry names gets neither a fitted constant nor
      an average. */
  lemma MergedStatsNone(song: Song, entries: seq<(string, seq<StatSlot>)>, records: map<string, PlayRecord>,
                        tiers: Store, d: int, diffLabel: string)
    requires Eligible(song, d)
    requires forall i :: 0 <= i < |entries| ==> entries[i].0 != NumberText(ParseInt(song.id))
    ensures var c := SlotChart(song, StatsTable(entries), records, tiers, d, diffLabel).value;
      c.fitDiff.None? && c.avgAchievement.None?
  {
    StatsTableKeys(entries, NumberText(ParseInt(song.id)));
  }

  /** Otherwise the fitted constant and the average come from the last
      entry naming the song (its id printed back from `parseInt`). */
  lemma MergedStatsLast(song: Song, entries: seq<(string, seq<StatSlot>)>, records: map<string, PlayRecord>,
                        tiers: Store, d: int, diffLabel: string, i: nat)
    requires Eligible(song, d)
    requires LastEntry(entries, NumberText(ParseInt(song.id)), i)
    ensures var c := SlotChart(song, StatsTable(entries), records, tiers, d, diffLabel).value;
      c.fitDiff == FitOf(entries[i].1, d) && c.avgAchievement == AvgOf(entries[i].1, d)
  {
    StatsTableLast(entries, NumberText(ParseInt(song.id)), i);
    SlotTableLookup(entries[i].1, d);
  }

  /** `i` is the last record for song `songId`, difficulty `d`. */
  predicate LastPlay(records: seq<PlayRecord>, songId: int, d: int, i: nat)
  {
    && i < |records| && records[i].songId == songId && records[i].levelIndex == d
    && forall j :: i < j < |records| ==> !(records[j].songId == songId && records[j].levelIndex == d)
  }

  /** The merged record is the score of the last record for the chart. */
  lemma MergedRecordLast(song: Song, stats: map<string, map<int, StatSlot>>, records: seq<PlayRecord>,
                         tiers: Store, d: int, diffLabel: string, songId: int, i: nat)
    requires Eligible(song, d) && ParseInt(song.id) == Finite(songId)
    requires LastPlay(records, songId, d, i)
    ensures SlotChart(song, stats, RecordTable(records), tiers, d, diffLabel).value.record == Some(records[i].score)
  {
    var key := RecordKey(IntToString(songId), d);
    forall j | i < j < |records| ensures RecordKeyOf(records[j]) != key {
      RecordKeyInjective(records[j].songId, records[j].levelIndex, songId, d);
    }
    KeyedLast(records, RecordKeyOf, key, i);
  }

  /** A chart with no record, or a song whose id does not parse, gets no
      record. */
  lemma MergedRecordNone(song: Song, stats: map<string, map<int, StatSlot>>, records: seq<PlayRecord>,
                         tiers: Store, d: int, diffLabel: string)
    requires Eligible(song, d)
    requires ParseInt(song.id).Finite? ==>
      forall j :: 0 <= j < |records| ==> !(records[j].songId == ParseInt(song.id).n && records[j].levelIndex == d)
    ensures SlotChart(song, stats, RecordTable(records), tiers, d, diffLabel).value.record.None?
  {
    var key := RecordKey(NumberText(ParseInt(song.id)), d);
    forall j | 0 <= j < |records| ensures RecordKeyOf(records[j]) != key {
      if ParseInt(song.id).Finite? {
        RecordKeyInjective(records[j].songId, records[j].levelIndex, ParseInt(song.id).n, d);
      } else {
        var printed := IntToString(records[j].songId);
        assert RecordKeyOf(records[j])[0] == printed[0];
        assert key[0] == 'N';
        NatToStringFirst(if records[j].songId < 0 then -records[j].songId else records[j].songId);
      }
    }
    KeyedKeys(records, RecordKeyOf, key);
  }

  /** A printed integer starts with a digit or a minus sign. */
  lemma NatToStringFirst(n: nat)
    ensures NatToString(n)[0] != 'N'
  {
    assert IsRadixDigit(NatToString(n)[0], 10);
  }

  /** The merged tier is the first list of the chart's own level that holds
      it; it agrees with `getChartTier` when no list of the other level holds
      the chart. */
  lemma MergedTier(song: Song, stats: map<string, map<int, StatSlot>>, records: map<string, PlayRecord>,
                   tiers: Store, d: int, diffLabel: string, songId: int)
    requires Eligible(song, d) && ParseInt(song.id) == Finite(songId)
    ensures var c := SlotChart(song, stats, records, tiers, d, diffLabel).value;
      c.tier == Lookup(tiers, LevelPairs(c.level), MakeChartKey(songId, d))
    ensures var c := SlotChart(song, stats, records, tiers, d, diffLabel).value;
      (forall t :: !Member(tiers, OtherLevel(c.level), t, MakeChartKey(songId, d)))
        ==> c.tier == GetChartTier(songId, d, tiers)
  {
    var c := SlotChart(song, stats, records, tiers, d, diffLabel).value;
    if forall t :: !Member(tiers, OtherLevel(c.level), t, MakeChartKey(songId, d)) {
      OwnLevelLookup(tiers, c.level, songId, d);
    }
  }

  /** The merge does not look in the other level: a `14` chart filed only
      under `14+` has no merged tier, although `getChartTier` finds it. */
  lemma MergedTierMissesOtherLevel(song: Song, stats: map<string, map<int, StatSlot>>, records: map<string, PlayRecord>,
                                   tiers: Store, d: int, diffLabel: string, songId: int, t: string)
    requires Eligible(song, d) && ParseInt(song.id) == Finite(songId) && song.level[d] == "14"
    requires forall u :: !Member(tiers, "14", u, MakeChartKey(songId, d))
    requires Member(tiers, "14+", t, MakeChartKey(songId, d)) && t in TierNames("14+")
    ensures SlotChart(song, stats, records, tiers, d, diffLabel).value.tier.None?
    ensures GetChartTier(songId, d, tiers).Some?
  {
    var key := MakeChartKey(songId, d);
    var j :| 0 <= j < 11 && TierNames("14+")[j] == t;
    ScanSlot(11 + j);
  }
}
