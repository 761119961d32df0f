/** Laws of the recommendation views in src/utils/recommender.js: each list
    of recommendations is exactly the charts still to play, ordered by the
    view's key and otherwise in catalog order, and the counts and averages
    beside it add up. */
module RecommendationLaws {
  import opened Wrappers
  import opened TierManager
  import opened SeqFilter
  import opened StableSort
  import opened Recommender
  import opened MergeLaws

  // ---------------------------------------------------------------------
  // The charts a view selects

  /** In the level and the tier. */
  function InTier(level: string, tier: string): MergedChart -> bool
  {
    (c: MergedChart) => c.level == level && TierName(c) == Some(tier)
  }

  /** In the level and the tier, and still to play. */
  function TierCandidate(threshold: real, level: string, tier: string): MergedChart -> bool
  {
    (c: MergedChart) => c.level == level && TierName(c) == Some(tier)
      && (c.record.None? || c.record.value.achievements < threshold)
  }

  /** In the level and the tier, and at the target. */
  function TierReached(threshold: real, level: string, tier: string): MergedChart -> bool
  {
    (c: MergedChart) => c.level == level && TierName(c) == Some(tier)
      && c.record.Some? && c.record.value.achievements >= threshold
  }

  /** In the level and still to play. */
  function LevelCandidate(threshold: real, level: string): MergedChart -> bool
  {
    (c: MergedChart) => c.level == level && (c.record.None? || c.record.value.achievements < threshold)
  }

  /** The order a tier's bucket is sorted in. */
  function BucketKey(tier: string): MergedChart -> SortKey
  {
    if tier == "range" then RangeKey else FixedKey
  }

  /** A chart is either still to play or at the target, never both. */
  lemma PendingOrReached(s: seq<MergedChart>, threshold: real)
    ensures |Filter(s, Pending(threshold))| + |Filter(s, Reached(threshold))| == |s|
  {
    FilterSplit(s, Pending(threshold), Reached(threshold));
  }

  // ---------------------------------------------------------------------
  // Averages and percentages

  /** The achievements of charts that all have a record and all lie between
      `lo` and `hi` add up to between `n * lo` and `n * hi`. */
  lemma {:induction false} SumBounds(s: seq<MergedChart>, lo: real, hi: real)
    requires forall i :: 0 <= i < |s| ==> s[i].record.Some? && lo <= s[i].record.value.achievements <= hi
    ensures |s| as real * lo <= SumAchievements(s) <= |s| as real * hi
    decreases |s|
  {
    if s != [] {
      SumBounds(s[..|s| - 1], lo, hi);
    }
  }

  /** The mean is null exactly when no chart has a record. */
  lemma AverageNone(s: seq<MergedChart>)
    ensures Average(s).None? <==> forall c :: c in s ==> c.record.None?
  {
    var w := Filter(s, HasRecord());
    FilterMembers(s, HasRecord());
    if |w| > 0 {
      assert w[0] in w;
    }
  }

  /** The mean lies between any bounds of the recorded achievements. */
  lemma AverageWithin(s: seq<MergedChart>, lo: real, hi: real)
    requires forall c :: c in s && c.record.Some? ==> lo <= c.record.value.achievements <= hi
    requires Average(s).Some?
    ensures lo <= Average(s).value <= hi
  {
    var w := Filter(s, HasRecord());
    forall i | 0 <= i < |w|
      ensures w[i].record.Some? && lo <= w[i].record.value.achievements <= hi
    {
      FilterMembers(s, HasRecord());
      assert w[i] in w;
    }
    SumBounds(w, lo, hi);
    var n, sum := |w| as real, SumAchievements(w);
    assert Average(s).value == sum / n;
    DivBounds(sum, n, lo, hi);
  }

  lemma DivBounds(sum: real, n: real, lo: real, hi: real)
    requires n > 0.0 && n * lo <= sum <= n * hi
    ensures lo <= sum / n <= hi
  {
  }

  /** A completion percentage lies between 0 and 100. */
  lemma ProgressBounds(completed: nat, total: nat)
    requires completed <= total
    ensures 0.0 <= Progress(completed, total) <= 100.0
    ensures Progress(completed, total) == 100.0 <==> total > 0 && completed == total
  {
    if total > 0 {
      var q := completed as real / total as real;
      assert q <= 1.0 && (q == 1.0 <==> completed == total) by {
        assert q * total as real == completed as real;
      }
    }
  }

  // ---------------------------------------------------------------------
  // generateRecommendations

  /** A bucket's recommendations are the charts of its level and tier that
      are still to play: each exactly as often as in the input. */
  lemma TierBucketMembers(songs: seq<MergedChart>, threshold: real, level: string, tier: string)
    ensures multiset(TierBucket(songs, threshold, level, tier).recommendations)
      == multiset(Filter(songs, TierCandidate(threshold, level, tier)))
  {
    CandidatesOfTier(songs, threshold, level, tier);
    var untargeted := Filter(songs, TierCandidate(threshold, level, tier));
    SortPermutes(untargeted, RangeKey);
    SortPermutes(untargeted, FixedKey);
  }

  /** The still-to-play charts of a bucket, before sorting. */
  lemma CandidatesOfTier(songs: seq<MergedChart>, threshold: real, level: string, tier: string)
    ensures Filter(Filter(Filter(songs, LevelIs(level)), TierIs(tier)), Pending(threshold))
      == Filter(songs, TierCandidate(threshold, level, tier))
    ensures Filter(Filter(Filter(songs, LevelIs(level)), TierIs(tier)), Reached(threshold))
      == Filter(songs, TierReached(threshold, level, tier))
    ensures Filter(Filter(songs, LevelIs(level)), TierIs(tier)) == Filter(songs, InTier(level, tier))
  {
    FilterFilter(songs, LevelIs(level), TierIs(tier), InTier(level, tier));
    var inTier := Filter(songs, InTier(level, tier));
    FilterFilter(songs, InTier(level, tier), Pending(threshold), TierCandidate(threshold, level, tier));
    FilterFilter(songs, InTier(level, tier), Reached(threshold), TierReached(threshold, level, tier));
  }

  /** A fixed tier's recommendations go by ascending `fitDiff || ds || 99`;
      the `range` tier's by ascending lower-bound value, then by that
      difficulty. */
  lemma TierBucketOrder(songs: seq<MergedChart>, threshold: real, level: string, tier: string)
    ensures var r := TierBucket(songs, threshold, level, tier).recommendations;
      tier != "range" ==> forall i, j :: 0 <= i < j < |r| ==> DiffKey(r[i]) <= DiffKey(r[j])
    ensures var r := TierBucket(songs, threshold, level, tier).recommendations;
      tier == "range" ==> forall i, j :: 0 <= i < j < |r| ==>
        || TierValue(RangeMin(r[i])) < TierValue(RangeMin(r[j]))
        || (TierValue(RangeMin(r[i])) == TierValue(RangeMin(r[j])) && DiffKey(r[i]) <= DiffKey(r[j]))
  {
    var untargeted := Filter(Filter(Filter(songs, LevelIs(level)), TierIs(tier)), Pending(threshold));
    SortSorted(untargeted, RangeKey);
    SortSorted(untargeted, FixedKey);
  }

  /** Recommendations that tie on the sort key stay in catalog order. */
  lemma TierBucketStable(songs: seq<MergedChart>, threshold: real, level: string, tier: string, k: SortKey)
    ensures WithKey(TierBucket(songs, threshold, level, tier).recommendations, BucketKey(tier), k)
      == WithKey(Filter(songs, TierCandidate(threshold, level, tier)), BucketKey(tier), k)
  {
    CandidatesOfTier(songs, threshold, level, tier);
    var untargeted := Filter(songs, TierCandidate(threshold, level, tier));
    SortStable(untargeted, RangeKey, k);
    SortStable(untargeted, FixedKey, k);
  }

  /** `total` counts the charts of the level and tier, `completed` those at
      the target, and the two with the recommendations add up. */
  lemma TierBucketCounts(songs: seq<MergedChart>, threshold: real, level: string, tier: string)
    ensures var b := TierBucket(songs, threshold, level, tier);
      && b.total == |Filter(songs, InTier(level, tier))|
      && b.completed == |Filter(songs, TierReached(threshold, level, tier))|
      && b.completed + |b.recommendations| == b.total
  {
    CandidatesOfTier(songs, threshold, level, tier);
    PendingOrReached(Filter(Filter(songs, LevelIs(level)), TierIs(tier)), threshold);
  }

  /** A bucket's mean achievement is over the charts of its level and tier
      that have a record, null when none has one. */
  lemma TierBucketAverage(songs: seq<MergedChart>, threshold: real, level: string, tier: string)
    ensures var b := TierBucket(songs, threshold, level, tier);
      && b.avgAchievement == Average(Filter(songs, InTier(level, tier)))
      && (b.avgAchievement.None? <==> forall c :: c in songs && InTier(level, tier)(c) ==> c.record.None?)
  {
    CandidatesOfTier(songs, threshold, level, tier);
    AverageNone(Filter(songs, InTier(level, tier)));
    FilterMembers(songs, InTier(level, tier));
  }

  // ---------------------------------------------------------------------
  // generateBirdPlusRecommendations

  lemma CandidatesOfLevel(songs: seq<MergedChart>, threshold: real, level: string)
    ensures Filter(Filter(songs, LevelIs(level)), Pending(threshold)) == Filter(songs, LevelCandidate(threshold, level))
  {
    FilterFilter(songs, LevelIs(level), Pending(threshold), LevelCandidate(threshold, level));
  }

  /** A level's recommendations are its charts still to play, each exactly
      as often as in the input. */
  lemma BirdPlusMembers(songs: seq<MergedChart>, threshold: real, level: string)
    ensures multiset(BirdPlusLevel(songs, threshold, level).recommendations)
      == multiset(Filter(songs, LevelCandidate(threshold, level)))
  {
    CandidatesOfLevel(songs, threshold, level);
    SortPermutes(Filter(songs, LevelCandidate(threshold, level)), BirdKey);
  }

  /** They go by ascending effective tier value, then by ascending
      `fitDiff || ds || 99`. */
  lemma BirdPlusOrder(songs: seq<MergedChart>, threshold: real, level: string)
    ensures var r := BirdPlusLevel(songs, threshold, level).recommendations;
      forall i, j :: 0 <= i < j < |r| ==>
        || EffectiveTierValue(r[i]) < EffectiveTierValue(r[j])
        || (EffectiveTierValue(r[i]) == EffectiveTierValue(r[j]) && DiffKey(r[i]) <= DiffKey(r[j]))
  {
    SortSorted(Filter(Filter(songs, LevelIs(level)), Pending(threshold)), BirdKey);
  }

  /** Recommendations that tie on the key stay in catalog order. */
  lemma BirdPlusStable(songs: seq<MergedChart>, threshold: real, level: string, k: SortKey)
    ensures WithKey(BirdPlusLevel(songs, threshold, level).recommendations, BirdKey, k)
      == WithKey(Filter(songs, LevelCandidate(threshold, level)), BirdKey, k)
  {
    CandidatesOfLevel(songs, threshold, level);
    SortStable(Filter(songs, LevelCandidate(threshold, level)), BirdKey, k);
  }

  /** Charts filed in the fixed tiers of their level come in tier order:
      a chart of a lower tier never follows one of a higher tier. */
  lemma BirdPlusTierOrder(songs: seq<MergedChart>, threshold: real, level: string, i: nat, j: nat, p: nat, q: nat)
    requires var r := BirdPlusLevel(songs, threshold, level).recommendations;
      && i < j < |r| && p < 9 && q < 9
      && TierName(r[i]) == Some(TierNames(level)[p]) && TierName(r[j]) == Some(TierNames(level)[q])
    ensures p <= q
  {
    var r := BirdPlusLevel(songs, threshold, level).recommendations;
    var names := TierNames(level);
    BirdPlusOrder(songs, threshold, level);
    TierNamesDistinct(level);
    assert names[p] != "range" && names[q] != "range" by {
      assert names[9] == "range";
    }
    TierValueOfNames(level, p);
    TierValueOfNames(level, q);
    assert EffectiveTierValue(r[i]) == p - 1;
    assert EffectiveTierValue(r[j]) == q - 1;
  }

  /** `completed` counts the level's charts at the target; with the
      recommendations it makes up the level's total. */
  lemma BirdPlusCounts(songs: seq<MergedChart>, threshold: real, level: string)
    ensures var v := BirdPlusLevel(songs, threshold, level);
      && v.total == |Filter(songs, LevelIs(level))|
      && v.completed == |Filter(Filter(songs, LevelIs(level)), Reached(threshold))|
      && v.progress == Progress(v.completed, v.total)
      && v.completed + |v.recommendations| == v.total
      && v.uncompleted == |v.recommendations|
      && 0.0 <= v.progress <= 100.0
  {
    var levelSongs := Filter(songs, LevelIs(level));
    PendingOrReached(levelSongs, threshold);
    ProgressBounds(|Filter(levelSongs, Reached(threshold))|, |levelSongs|);
  }

  /** The shown mean is the mean achievement over the level's charts that
      have a record; it is null when none has one, and a mean of 0 is shown
      as null too. */
  lemma BirdPlusAverage(songs: seq<MergedChart>, threshold: real, level: string)
    ensures var v, avg := BirdPlusLevel(songs, threshold, level), Average(Filter(songs, LevelIs(level)));
      && (v.avgAchievement.None? <==>
            (forall c :: c in songs && LevelIs(level)(c) ==> c.record.None?) || avg == Some(0.0))
      && (v.avgAchievement.Some? ==> v.avgAchievement == avg)
  {
    AverageNone(Filter(songs, LevelIs(level)));
    FilterMembers(songs, LevelIs(level));
  }

  // ---------------------------------------------------------------------
  // getOverallStats

  /** The overall counts are within the total, the percentage within 0 to
      100, and the mean is null exactly when no chart has a record. */
  lemma OverallBounds(songs: seq<MergedChart>, threshold: real)
    ensures CountIf(songs, Reached(threshold)) <= |songs|
    ensures 0.0 <= Progress(CountIf(songs, Reached(threshold)), |songs|) <= 100.0
    ensures Average(songs).None? <==> forall c :: c in songs ==> c.record.None?
  {
    ProgressBounds(CountIf(songs, Reached(threshold)), |songs|);
    AverageNone(songs);
  }

  /** On merged data, where every chart is of level `14` or `14+`, the
      overall completed count is the sum of the two levels' counts. */
  lemma OverallIsSumOfLevels(songs: seq<MergedChart>, threshold: real)
    requires forall c :: c in songs ==> c.level == "14" || c.level == "14+"
    ensures CountIf(songs, Reached(threshold))
      == BirdPlusLevel(songs, threshold, "14").completed + BirdPlusLevel(songs, threshold, "14+").completed
  {
    SplitByLevel(songs, threshold);
  }

  lemma {:induction false} SplitByLevel(songs: seq<MergedChart>, threshold: real)
    requires forall c :: c in songs ==> c.level == "14" || c.level == "14+"
    ensures CountIf(songs, Reached(threshold))
      == |Filter(Filter(songs, LevelIs("14")), Reached(threshold))| + |Filter(Filter(songs, LevelIs("14+")), Reached(threshold))|
    decreases |songs|
  {
    if songs != [] {
      var init := songs[..|songs| - 1];
      assert forall c :: c in init ==> c in songs;
      SplitByLevel(init, threshold);
      var c := songs[|songs| - 1];
      assert c in songs;
      var a := Filter(init, LevelIs("14"));
      var b := Filter(init, LevelIs("14+"));
      if c.level == "14" {
        FilterAppend(a, [c], Reached(threshold));
        assert Filter(songs, LevelIs("14")) == a + [c];
        assert Filter(songs, LevelIs("14+")) == b;
      } else {
        FilterAppend(b, [c], Reached(threshold));
        assert Filter(songs, LevelIs("14+")) == b + [c];
        assert Filter(songs, LevelIs("14")) == a;
      }
      assert [c][..0] == [];
    }
  }
}
