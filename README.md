# maimai score planner: tier store and recommendation engine in Dafny

This project models the core logic of two modules of the maimai score planner
and proves properties about them.

- **Tier store** (`src/utils/tierManager.js`). The community tier list
  classifies charts of level `14` and `14+`. Each level has 11 named tiers:
  a floor tier (`13+` or `14`), then `0` to `7`, then `range` and `emoji`.
  Each tier holds a list of chart keys `songId-diffIndex`. A `range` entry
  also carries a lower and an upper tier bound. The model covers:
  - the chart-key text format and its parser;
  - the tier names;
  - the first-match lookup `getChartTier`;
  - the in-place reclassification `setChartTier`, as a class whose field
    is the store and whose methods run the source's nested loops;
  - the migration of legacy list entries;
  - the import selection step;
  - the per-tier counts.
- **Recommendation engine** (`src/utils/recommender.js`). `mergeData`
  joins four inputs into one record per Master / Re:Master chart of level
  `14` or `14+`:
  - the song catalog;
  - the fitted-difficulty statistics;
  - the player's records;
  - the tier store.

  Three views summarise those records against a target achievement:
  - `generateRecommendations`, per level and tier;
  - `generateBirdPlusRecommendations`, a flat list per level;
  - `getOverallStats`, a single pass.

  The methods keep the source's loops. Each one is proved equal to a
  specification function, and the lemmas are about those functions.

JavaScript behaviour the source relies on is written out:
- `String(n)` and template literals on integers;
- `parseInt` with leading white space, sign and `0x` prefix;
- `Number(x)` on integer-shaped input;
- `split`;
- truthiness (`x || null`, `fitDiff || ds || 99`, `avg ? … : null`);
- the stable `Array.prototype.sort` with the source's comparators.

Files:
- `wrappers.dfy`: `Option` and `Result`.
- `js_text.dfy`: JavaScript text and number conversions.
- `tier_manager.dfy`: the tier store, including the `TierStore` class.
- `tier_laws.dfy` and `set_tier_laws.dfy`: laws of keys, migration and
  `setChartTier`.
- `filter.dfy`: `filter`, counts and flat-map.
- `stable_sort.dfy`: a stable sort by a lexicographic key.
- `recommender.dfy`: the merge and the three views.
- `recommender_laws.dfy`: laws of the merge and of the tier value.
- `recommendation_laws.dfy`: laws of the views.

## Model

| member | source | states |
|---|---|---|
| TierManager.TierNames | src/utils/tierManager.js:64-69 | 11 names: the floor tier (`14` for level `14+`, `13+` otherwise), `0`..`7`, `range`, `emoji` |
| TierManager.TierNamesDistinct | src/utils/tierManager.js:64-69 | no tier name occurs twice in a level |
| TierManager.AllTierNames | src/utils/tierManager.js:74-76 | 12 distinct names, exactly the union of both levels' tier names |
| TierManager.DefaultStore | src/utils/tierManager.js:6-39 | the default structure has exactly both levels with exactly their tier names, every list empty |
| TierManager.MakeChartKey | src/utils/tierManager.js:47-49 | the key `${songId}-${diffIndex}` holds the separator `-` |
| TierManager.ParseChartKey | src/utils/tierManager.js:55-58 | split on `-` and `parseInt` each piece; with no separator the difficulty is NaN |
| TierLaws.ChartKeyRoundTrip | src/utils/tierManager.js:47-58 | `parseChartKey(makeChartKey(id, d))` gives back `(id, d)` for non-negative integers |
| TierLaws.ChartKeyInjective | src/utils/tierManager.js:47-49 | distinct non-negative (song, difficulty) pairs have distinct keys |
| TierLaws.NegativeSongIdKey | src/utils/tierManager.js:47-58 | for song id -1 the key is `-1-3`, and parsing it gives NaN and 1: the round trip needs a non-negative id |
| JsText.NatToStringValue | src/utils/tierManager.js:48 | the decimal digits printed for `n` have the value `n` |
| JsText.ParseIntOfNat | src/utils/tierManager.js:57 | `parseInt(String(n)) == n` for non-negative `n` |
| JsText.Split | src/utils/tierManager.js:56 | `split` gives at least one piece, no piece holds the separator, and joining the pieces gives back the text |
| JsText.SplitAfterPlain | src/utils/tierManager.js:56 | text without the separator comes back as the first piece |
| JsText.StringToNumber | src/utils/tierManager.js:225 | `Number` of blank text is 0 |
| JsText.StringToNumberOfInt | src/utils/tierManager.js:225 | `Number(String(n)) == n` for every integer `n` |
| JsText.StringToNumberOfWord | src/utils/tierManager.js:225 | text that starts with neither a sign, a digit nor white space is NaN |
| TierManager.FindEntry | src/utils/tierManager.js:259-265 | `find`/`includes` on one list: none exactly when no entry stands for the chart, else the first such index |
| TierManager.EntryInfo | src/utils/tierManager.js:259-266 | the report names the level and tier; for `range` it carries the bounds of the first matching entry, otherwise none |
| TierManager.Lookup | src/utils/tierManager.js:252-271 | none exactly when no visited list holds the chart, else the report of the first list in visiting order that does |
| TierManager.ScanOrderCovers | src/utils/tierManager.js:252-253 | the scan visits exactly the 22 lists of the two levels' tier names |
| TierManager.GetChartTier | src/utils/tierManager.js:250-272 | null exactly when no scanned list holds the chart; otherwise a scanned list that holds it, with its report |
| TierManager.GetChartTierFirstMatch | src/utils/tierManager.js:252-269 | the reported list is the first match: a `14+` report means no `14` list holds the chart, and no earlier tier of its level does |
| TierManager.LegacyKey | src/utils/tierManager.js:223-225 | a string holding `-` is kept; a bare song id, or text that `Number` reads as one, becomes the key of difficulty 3; text that is not a number and an object become `NaN-3` |
| TierLaws.LegacyKeyOfIdText | src/utils/tierManager.js:223-225 | a non-negative song id written as text (`"123"`) migrates to the same key as the bare number (`123-3`) |
| TierManager.MigrateItem | src/utils/tierManager.js:211-236 | in `range`, an object with a non-empty `chartKey` keeps it with stringified bounds, and any other entry becomes `{LegacyKey(item), '0', '0'}`; in other tiers every entry becomes `LegacyKey(item)`, so a string holding `-` is kept and anything else becomes `makeChartKey(Number(item), 3)` |
| TierManager.MigrateList | src/utils/tierManager.js:213-235 | same length and order as the input list, each entry migrated and canonical |
| TierManager.MigrateLevel | src/utils/tierManager.js:207-237 | a migrated level has exactly its tier names, each the migrated input list or empty |
| TierManager.MigrateLegacyData | src/utils/tierManager.js:200-241 | the output has exactly the schema's lists, all canonical, each as long as its input list and migrated entry by entry |
| TierLaws.MigrateCanonical | src/utils/tierManager.js:200-241 | migrating a canonical store read back from storage gives it back |
| TierLaws.MigrateIdempotent | src/utils/tierManager.js:200-241 | migrating migrated data changes nothing |
| TierLaws.MigrateNothing | src/utils/tierManager.js:200-241 | migrating an empty object gives the default structure |
| TierLaws.MigratedScanned | src/utils/tierManager.js:200-241 | a migrated store has only the schema's lists, the form the `setChartTier` laws assume |
| TierLaws.MigrateStats | src/utils/tierManager.js:200-241 | after migration each count equals the length of the persisted list, 0 if missing |
| TierLaws.MigrateMayDuplicate | src/utils/tierManager.js:230-235 | `123` and `"123-3"` in one list both become `123-3`: migration does not remove duplicates |
| TierManager.ImportTierData | src/utils/tierManager.js:173-193 | succeeds exactly when `tiers` is truthy or a `14`/`14+` entry exists; takes `data.tiers` first, else the top-level object; the result is the migration of the one taken, and canonical |
| TierManager.RemoveFirst | src/utils/tierManager.js:293-302 | a list holding the chart loses exactly one entry; any other list is unchanged |
| TierLaws.RemoveFirstOne | src/utils/tierManager.js:293-302 | even with duplicates, one splice removes exactly one entry for the chart, and every other entry stays, in order |
| TierLaws.RemoveFirstHead | src/utils/tierManager.js:293-302 | the entry spliced out is the chart's first: its entries in the list lose exactly their head, and a lookup reads that head, so a second `range` entry's bounds are what remains |
| TierManager.RemoveChart | src/utils/tierManager.js:287-305 | every scanned list loses its first entry for the chart; no list is added, dropped or otherwise changed |
| TierManager.AddChart | src/utils/tierManager.js:308-324 | only the target list can change, and only by the new entry pushed at its end |
| TierManager.TierStore.RemoveFromList | src/utils/tierManager.js:289-303 | one loop step: splice out the first entry for the chart, if the list exists and holds it |
| TierManager.TierStore.RemoveEverywhere | src/utils/tierManager.js:287-305 | the removal loops leave the store equal to `RemoveChart` of the old store |
| TierManager.TierStore.SetChartTier | src/utils/tierManager.js:283-326 | the new store is the old one with the chart removed, then inserted |
| SetTierLaws.SetTierShape | src/utils/tierManager.js:283-326 | in a schema store, no list is added or dropped; each list loses its entries for the chart, and the target list also gets the new entry |
| SetTierLaws.SetTierPlacement | src/utils/tierManager.js:283-326 | in a schema store, with at most one entry per list beforehand, afterwards the chart is in exactly the target list when the call inserts, else in none |
| SetTierLaws.SetTierNoDuplicates | src/utils/tierManager.js:283-326 | in a schema store, if no list holds the chart twice beforehand, none holds it twice afterwards (for the chart being set) |
| SetTierLaws.DefaultOneTierEach | src/utils/tierManager.js:6-39 | in the default structure every chart is in at most one list, at most once |
| SetTierLaws.OtherCountAfterSet | src/utils/tierManager.js:283-326 | in a schema store, in every list, the number of entries for any other chart is unchanged |
| SetTierLaws.SetTierKeepsOneTier | src/utils/tierManager.js:283-326 | in a schema store, if every chart is in at most one list, at most once, then after the call every chart still is; so any sequence of calls from such a store keeps it |
| SetTierLaws.SetTierKeepsOrder | src/utils/tierManager.js:283-326 | in a schema store, all other entries keep their relative order in every list |
| SetTierLaws.SetTierIdempotent | src/utils/tierManager.js:287-324 | in a schema store, a second identical call leaves the store as after one call |
| SetTierLaws.SetTierStats | src/utils/tierManager.js:283-339 | in a schema store, each count drops by one where the chart was and rises by one in the target list |
| SetTierLaws.GetAfterSet | src/utils/tierManager.js:250-326 | in a schema store, reading the chart back reports the target (with the bounds just written, for `range`), or null after a pure removal |
| SetTierLaws.SetTierOtherCharts | src/utils/tierManager.js:250-326 | in a schema store, what `getChartTier` reports for every other chart is unchanged |
| TierManager.GetTierStats | src/utils/tierManager.js:331-339 | exactly the schema's levels and tiers; each count is the list's length, or 0 when the list is missing |
| Recommender.GetTargetName | src/utils/recommender.js:13-18 | the name of the highest preset the threshold reaches, or of the lowest preset |
| MergeLaws.TargetNamesOfPresets | src/utils/recommender.js:8-18 | each preset threshold is named by its own name |
| Recommender.TruthyValue | src/utils/recommender.js:104-105 | the `or null` fallback is the value exactly when it is present and non-zero |
| Recommender.SlotChart | src/utils/recommender.js:59-115 | a slot gives a record exactly when its `ds` is present and non-zero and its level label is exactly `14` or `14+` |
| Recommender.MergeData | src/utils/recommender.js:24-120 | the result equals the specification: the tables built from the inputs, and the song loop's records in catalog order |
| Recommender.BuildFitDiffMap | src/utils/recommender.js:28-38 | the statistics table equals its specification |
| Recommender.BuildRecordMap | src/utils/recommender.js:41-47 | the record table equals its specification |
| Recommender.MergeSong | src/utils/recommender.js:50-117 | one song's records are its eligible slots, Master then Re:Master |
| Recommender.MergeSlot | src/utils/recommender.js:59-115 | one slot's output is its merged record, or nothing when it is skipped |
| Recommender.FindInLevel | src/utils/recommender.js:72-94 | the tier loop finds the first list of the chart's own level that holds it |
| Recommender.LookupAt | src/utils/recommender.js:76-94 | the lookup reports the first list that holds the chart |
| MergeLaws.SongCharts | src/utils/recommender.js:54-116 | a song gives its Master record, then its Re:Master record, each only if that slot is eligible |
| MergeLaws.MergeAppend | src/utils/recommender.js:50-117 | merging two runs of songs concatenates their outputs: catalog order |
| MergeLaws.MergeMembers | src/utils/recommender.js:50-117 | every merged record comes from one song of the catalog, and each song's records are in the output |
| MergeLaws.SlotChartShape | src/utils/recommender.js:59-115 | a record is slot 3 or 4 with its label, level `14` or `14+`, and non-zero `ds`; its tier is one of its own level's tiers |
| MergeLaws.MergeShape | src/utils/recommender.js:50-117 | every record of the merge has that shape |
| MergeLaws.SlotTableLookup | src/utils/recommender.js:32-36 | a song's table holds exactly the truthy elements whose `fit_diff` is defined, under their index |
| MergeLaws.StatsTableKeys | src/utils/recommender.js:29-37 | the table has a song exactly when an entry names it |
| MergeLaws.StatsTableLast | src/utils/recommender.js:29-37 | a song's table comes from the last entry naming it |
| MergeLaws.KeyedKeys | src/utils/recommender.js:42-46 | the record table has a key exactly when a record carries it |
| MergeLaws.KeyedLast | src/utils/recommender.js:42-46 | for each key the record table holds the last record carrying it |
| MergeLaws.RecordKeyInjective | src/utils/recommender.js:44 | two record keys are equal exactly when the song ids and difficulties are |
| MergeLaws.ParseIntOfInt | src/utils/recommender.js:51 | `parseInt(String(n)) == n` for every integer |
| MergeLaws.MergedStatsNone | src/utils/recommender.js:67-105 | a song named by no statistics entry gets a null `fitDiff` and a null `avgAchievement` |
| MergeLaws.MergedStatsLast | src/utils/recommender.js:28-38 | otherwise both come from the last entry naming the song, each null when falsy, and `avg` only from an element with `fit_diff` defined |
| MergeLaws.MergedRecordLast | src/utils/recommender.js:41-47 | the merged record is the score of the last player record for the chart |
| MergeLaws.MergedRecordNone | src/utils/recommender.js:67-113 | no player record for the chart, or a song id that does not parse, gives a null record |
| MergeLaws.MergedTier | src/utils/recommender.js:72-94 | the merged tier is the first list of the chart's own level that holds it; it agrees with `getChartTier` when the other level does not hold the chart |
| MergeLaws.MergedTierMissesOtherLevel | src/utils/recommender.js:73-77 | a `14` chart filed only under `14+` gets a null merged tier, although `getChartTier` finds it |
| MergeLaws.OwnLevelLookup | src/utils/recommender.js:76-94 | searching one level agrees with the two-level scan when the other level does not hold the chart |
| MergeLaws.LookupAppend | src/utils/tierManager.js:252-271 | a lookup over two runs of lists reports from the first run when that run holds the chart |
| MergeLaws.TierValueOfNames | src/utils/recommender.js:127-131 | `tierToValue` gives -1 for the floor tier, `k` for tier `k`, and 99 for `range` and `emoji` |
| MergeLaws.TierValueFollowsNames | src/utils/recommender.js:127-131 | along a level's tier names up to `7` the value strictly increases; an absent tier is 99, the maximum |
| MergeLaws.WordIsNaN | src/utils/recommender.js:129-130 | a name starting with a letter does not parse, so it is 99 |
| Recommender.DiffKey | src/utils/recommender.js:167-168 | the fallback key (`fitDiff`, else `ds`, else 99): the fitted constant when truthy, else `ds` when non-zero, and never 0 |
| StableSort.SortSorted | src/utils/recommender.js:161-178 | the sorted list is ordered by the comparator's key |
| StableSort.SortPermutes | src/utils/recommender.js:161-178 | sorting keeps the same elements, each as often |
| StableSort.SortStable | src/utils/recommender.js:161-178 | elements with equal keys keep their order |
| SeqFilter.FilterMembers | src/utils/recommender.js:147-158 | `filter` keeps exactly the elements satisfying the predicate |
| SeqFilter.FilterFilter | src/utils/recommender.js:147-158 | filtering twice keeps the elements satisfying both predicates |
| SeqFilter.FilterSplit | src/utils/recommender.js:155-188 | the kept and the dropped elements add up to the list |
| SeqFilter.FilterMultiset | src/utils/recommender.js:155-158 | filtering keeps each satisfying element as often as the input has it |
| SeqFilter.CountIf | src/utils/recommender.js:207-215 | the counter equals the length of the filtered list |
| Recommender.GenerateRecommendations | src/utils/recommender.js:139-196 | the result has exactly both levels, each with every tier's summary |
| Recommender.LevelBuckets | src/utils/recommender.js:146-192 | one level's tiers each have their summary, and only those tiers |
| RecommendationLaws.TierBucketMembers | src/utils/recommender.js:147-158 | a bucket's recommendations are a permutation of the level's charts in the tier that have no record or are below the target |
| RecommendationLaws.TierBucketOrder | src/utils/recommender.js:161-178 | a fixed tier is ascending by the fallback key (`fitDiff`, else `ds`, else 99); `range` is ascending by the lower bound's value, then by that key |
| RecommendationLaws.TierBucketStable | src/utils/recommender.js:161-178 | ties keep catalog order |
| RecommendationLaws.TierBucketCounts | src/utils/recommender.js:181-191 | `total` counts the level's charts in the tier, `completed` those at the target, and `completed + recommendations.length == total` |
| RecommendationLaws.TierBucketAverage | src/utils/recommender.js:181-184 | the mean is over the tier's charts with a record, and null exactly when none has one |
| Recommender.GetOverallStats | src/utils/recommender.js:201-225 | the counting loop gives the total, those at the target, the rest, the percentage and the mean over charts with a record |
| Recommender.SumOfRecorded | src/utils/recommender.js:204-215 | the running sum over all charts equals the sum over those with a record |
| RecommendationLaws.OverallBounds | src/utils/recommender.js:201-225 | completed is at most the total, progress is between 0 and 100, and the mean is null exactly when no chart has a record |
| RecommendationLaws.OverallIsSumOfLevels | src/utils/recommender.js:201-283 | on merged data the overall completed count is the sum of the two levels' counts in the flat view |
| RecommendationLaws.AverageNone | src/utils/recommender.js:181-184 | the mean is null exactly when no chart has a record |
| RecommendationLaws.AverageWithin | src/utils/recommender.js:181-184 | the mean lies within any bounds of the recorded achievements |
| RecommendationLaws.SumBounds | src/utils/recommender.js:183 | the sum of `n` bounded achievements lies between `n` times the bounds |
| RecommendationLaws.ProgressBounds | src/utils/recommender.js:222 | the percentage lies between 0 and 100, and is 100 exactly when every chart is completed |
| RecommendationLaws.PendingOrReached | src/utils/recommender.js:155-158 | every chart is either below the target or reaches it, never both |
| Recommender.GenerateBirdPlusRecommendations | src/utils/recommender.js:233-288 | the result has exactly both levels, each with its flat summary |
| RecommendationLaws.BirdPlusMembers | src/utils/recommender.js:240-246 | the recommendations are a permutation of the level's charts below the target |
| RecommendationLaws.BirdPlusOrder | src/utils/recommender.js:249-267 | they are ascending by effective tier value (the lower bound for `range`), then by the fallback key (`fitDiff`, else `ds`, else 99) |
| RecommendationLaws.BirdPlusStable | src/utils/recommender.js:249-267 | ties keep catalog order |
| RecommendationLaws.BirdPlusTierOrder | src/utils/recommender.js:249-261 | charts of the fixed tiers (the floor tier to `7`) come in tier order |
| RecommendationLaws.BirdPlusCounts | src/utils/recommender.js:270-283 | `total` counts the level's charts, `completed` those of them at the target, `progress` is `completed / total` as a percentage, `completed + recommendations.length == total`, `uncompleted` is the number of recommendations, progress is between 0 and 100 |
| RecommendationLaws.BirdPlusAverage | src/utils/recommender.js:272-282 | the shown mean is the mean over the level's charts with a record; it is null exactly when none has one or that mean is 0 |

## Left out

- I/O is left out: `loadTierData`, `loadDefaultTierData`, `saveTierData` and `exportTierData` (`localStorage`, `fetch`, `Blob`, the download link, the date), and `console.error`. So are `getTierDisplayName`, which only holds display labels, and `src/api/divingFish.js`, which is HTTP transport.
- TierManager.ImportTierData: `JSON.parse` and the exception are not modelled. The function starts from the parsed document (its `tiers` field if truthy, and its top-level level entries) and returns an error value where the source throws.
- Numbers are modelled as follows:
  - Achievements, `ds`, `fitDiff`, `avg` and thresholds are `real`, so IEEE rounding is not modelled.
  - Song ids and difficulty indices are unbounded integers, so nothing beyond 2^53 is modelled.
  - A song id that does not parse (NaN) is modelled. Its keys print it as `NaN`.
- `toFixed(1)` and `toFixed(4)` on `progress` and `avgAchievement` are not modelled. Both are exact real quotients. `progress` for no charts is the number 0, as in the source.
- JsText.StringToNumber: `Number(x)` is modelled for integer-shaped text (decimal with sign, `0x`, `0o`, `0b`). Decimal points, exponents and `Infinity` give NaN here. JavaScript reads such text as a number, sometimes an integer: `Number("123.0")` is 123 and `Number("1e3")` is 1000. So a legacy entry `"123.0"` migrates to `123-3` in JavaScript but to `NaN-3` here. This matters only for bare legacy entries in migration.
- Legacy entries are modelled as numbers, strings, or objects with a possibly empty `chartKey`. `null`, booleans and nested arrays are not modelled.
- `Array.prototype.sort` is a library call. It is modelled as a stable insertion sort with the source's comparators, which ECMAScript 2019 requires to be stable. It is a function on values, not an in-place sort of the array.
- Recommender.MergeData: `Object.entries(chartStats.charts)` is modelled as a list of (id text, element list) pairs, and `playerRecords.records` as a list. A missing `chartStats`, `charts`, `playerRecords` or `records` is modelled as an empty list.
- Recommender.MergeData: a player record's `song_id` is modelled as an integer and printed with `String`.
- Recommender.MergeData: only the six score fields the merge copies are modelled.
- TierManager.TierStore.SetChartTier: the store is one field holding a map of lists, so aliasing between the store and other references to its lists is not modelled.
- SetTierLaws: every law assumes a store whose lists are all ones the scans visit (`AllScanned`: levels `14` and `14+`, their own tier names). The source does not guarantee this, since a loaded or fetched document without `tiers` is used unmigrated. With an extra `range` list outside the scanned levels (say level `15`), the removal loop never visits it, so every call targeting it pushes one more object and idempotence fails. Default, migrated and imported stores have this form (`DefaultOneTierEach`, `TierLaws.MigratedScanned`), and each call keeps it (`SetTierNoDuplicates`, `SetTierKeepsOneTier`).
- SetTierLaws: the removal splices out only the first entry per list. The membership and idempotence laws therefore assume that no list holds the chart twice. `SetTierKeepsOneTier` shows that each call keeps the store-wide form of this (every chart in at most one list, at most once), and `DefaultOneTierEach` that the default structure has it. Migration can create such duplicates (`TierLaws.MigrateMayDuplicate`).
- TierLaws.ChartKeyRoundTrip: stated for non-negative ids. `TierLaws.NegativeSongIdKey` shows what happens otherwise.
- Recommender.GenerateRecommendations: the target is a required parameter, so the JavaScript default is not modelled. The default, 100.7 (src/utils/recommender.js:139), is the constant `Recommender.DefaultTarget`, which a caller passes explicitly.
- Recommender.GetOverallStats: the same holds; its default, 100.7 (src/utils/recommender.js:201), is also `Recommender.DefaultTarget`.
- Recommender.GenerateBirdPlusRecommendations: the same holds; its default, 100.5 (src/utils/recommender.js:233), is `Recommender.BirdPlusTarget`.
- Recommender.GenerateBirdPlusRecommendations: the initial value `{'14': [], '14+': []}` is overwritten for both levels, so the model builds the final map directly.
- The merged tier searches only the chart's own level, as the source does (`MergeLaws.MergedTierMissesOtherLevel`). `tierToValue` ignores its level argument, as the source does.
