# ml-endpoints core, in Dafny

This project models the data logic of the ml-endpoints SvelteKit application, a
dashboard for MLPerf inference results and Pareto charts of serving
configurations. It covers six parts:

- **The mock resource store** behind the REST API (`src/lib/server/db.js`). A document of named
  collections, plus two singleton objects, served by `getAll` (filter by dot path, stable sort,
  `parseInt`/`slice` paging), `getById`, `create` (with generated ids), `replace`, `update` and `remove`.
- **The join and transform layer.**
  - Pareto curves are built from submissions, systems, models and runs.
  - System data is grouped and prepared for the Pareto charts.
  - The Pareto document is parsed into series, annotations and view modes.
  - Chart configuration is built from curves.
- **The UI stores as small state machines.** Each is a class whose methods update its fields:
  - the cascading benchmark filters;
  - the chart builder's layer list;
  - the timeline range;
  - the axis selector;
  - the chart filters;
  - the chart settings;
  - the page settings;
  - the theme.
- **The deterministic parts of the placeholder chart generator.** This is the 32-bit string hash
  that seeds it and its linear congruential generator, plus the shape and bounds of the charts it
  produces.
- **The benchmark service.** It covers the whitelist validation, the outcome of the two entry
  points and the display URL.
- **The small tables and helpers:**
  - chart axis ticks and margins;
  - navigation matching;
  - the benchmark model table;
  - organisation colours.

Each source file has one module (`db.dfy` is `Db`, `chart_builder.dfy` is `ChartBuilder`, and so on).
Shared helpers live in `Seqs`, `Sorting`, `Strs`, `JsMath` and `Wrappers`.

`Array.prototype.sort` is modelled by a stable insertion sort over a total-preorder comparator
(`Sorting.SortBy`). ECMAScript 2019 requires `sort` to be stable. Every sort below is therefore
proved sorted, a permutation of its input, and order-preserving among ties. JavaScript's `null`
and `undefined` become `Option.None`. Numbers in the chart layout helpers are exact reals; JSON numbers, in the store and the chart builder, are integers. Where the source
depends on 32-bit wrap-around (`hash & hash`) or on JavaScript's `%`, `parseInt` or `slice`
index rules, those are written out.

## Model

| member | source | states |
|---|---|---|
| Db.Get | src/lib/server/db.js:69-72 | `searchParams.get` is the value of the first pair with the key, and None exactly when no pair has it |
| Db.FilterParams | src/lib/server/db.js:75-76 | the filter parameters are exactly the query pairs whose key is not `_sort`, `_order`, `_page` or `_limit` |
| Db.ParseInt | src/lib/server/db.js:103-104 | `parseInt(s, 10)` of a digit string is its decimal value; text that does not start with a digit or a sign, and a sign not followed by a digit, is NaN (None) |
| Db.ParseIntOfDigitsThen | src/lib/server/db.js:103-104 | digits followed by text that does not start with a digit read as the digits' value, the rest ignored (`"2abc"` is 2) |
| Db.ParseIntOfSignedDigitsThen | src/lib/server/db.js:103-104 | the same after a `+` or `-`, which gives the sign (`"+5"` is 5, `"-12x"` is -12) |
| Db.ParseIntOfString | src/lib/server/db.js:103-104 | parseInt reads back the decimal text of every integer, negative ones included |
| Db.ParseIntOfNegated | src/lib/server/db.js:103-104 | a minus sign followed by digits reads as the negated decimal value |
| Db.Paging | src/lib/server/db.js:102-104 | paging applies exactly when both `_page` and `_limit` are present and non-empty, with the two values as parseInt reads them |
| Db.SliceIndex | src/lib/server/db.js:105-106 | a `slice` argument stands for a position inside the list: NaN is 0, a negative one counts back from the end, and both ends are clamped |
| Db.JsSlice | src/lib/server/db.js:105-106 | `slice(start, end)` is the part between the two positions, or empty when the end position does not exceed the start position |
| Db.SliceIndexMonotone | src/lib/server/db.js:105-106 | on one side of zero, a later argument never stands for an earlier position and never jumps further than the arguments differ |
| Db.PageSize | src/lib/server/db.js:102-107 | a page holds at most `limit` records for a limit that is not negative, and none when the page or the limit is NaN |
| Db.StartOfPage | src/lib/server/db.js:105 | a start below zero comes only from a page before the first, and that page ends at or before zero |
| Db.SliceWidth | src/lib/server/db.js:106 | `slice(a, a + l)` is at most `l` long when the range does not straddle zero |
| Db.PageBoundsOfCount | src/lib/server/db.js:105-106 | for a page counted from 1 and a limit that is a count, the slice is exactly page `page` of `limit` records |
| Db.SliceOfRange | src/lib/server/db.js:106 | `slice(start, start + len)` with count arguments is the list from `start`, clamped to at most `len` records |
| Db.Slice | src/lib/server/db.js:106 | the clamped slice holds at most `len` records, from `start` on, and nothing when `start` is past the end |
| Db.LookupOfNone | src/lib/server/db.js:224-231 | once a dot path reaches undefined, the rest of the path stays undefined |
| Db.NestedValueOfPlainKey | src/lib/server/db.js:224-231 | a path without a dot reads the record's own field, or undefined |
| Db.NestedValueOfDottedPath | src/lib/server/db.js:224-231 | `a.b` is read by reading `a`, then field `b` of the result |
| Db.LookupAppend | src/lib/server/db.js:224-231 | following a path in two pieces is the same as following it at once |
| Db.ApplyFiltersIsFilter | src/lib/server/db.js:79-85 | the filter loop keeps exactly the records that match every filter parameter, in collection order |
| Db.ValueLeqTotalPreorder | src/lib/server/db.js:88-95 | the order on field values is total and transitive |
| Db.ComparatorTotalPreorder | src/lib/server/db.js:88-95 | the sort comparator, ascending or reversed, is a total preorder, so the stable sort applies |
| Db.GetAllOf | src/lib/server/db.js:53-63 | getAll is null for an unknown resource and for a non-array one; it returns a singleton verbatim whatever the query; a collection never comes back as an object |
| Db.OrderedContents | src/lib/server/db.js:79-96 | before paging, the records are exactly the collection's records that match every filter, each as often as it occurs there |
| Db.OrderedUnsorted | src/lib/server/db.js:79-86 | without `_sort` the records are a subsequence of the collection, in its order |
| Db.OrderedSorted | src/lib/server/db.js:88-96 | with `_sort` the records are sorted by that field: ascending when `_order` is absent, empty or `asc`, otherwise descending; equal keys keep their filtered order |
| Db.PageOfContents | src/lib/server/db.js:105-106 | a page has at most `limit` records, exactly `limit` when the list continues past it, and is the list from `(page - 1) * limit` on |
| Db.ConsecutivePages | src/lib/server/db.js:105-106 | page `p` followed by page `p + 1` is the list's next `2 * limit` records from the start of page `p` |
| Db.SliceSplit | src/lib/server/db.js:106 | two adjacent clamped slices together are the clamped slice of their joint length |
| Db.SelectPages | src/lib/server/db.js:98-111 | without both paging parameters the whole ordered list is returned with no total; with them, `total` is the number of records passing the filters, and the data is that page |
| Db.MaxNumber | src/lib/server/db.js:243-246 | the largest trailing number among the ids, or 0 when there is none |
| Db.MaxIdNumber | src/lib/server/db.js:243-246 | no existing id has a trailing number above it |
| Db.GenerateIdNumber | src/lib/server/db.js:242-248 | the generated id ends in one more than the largest trailing number of the existing ids |
| Db.GenerateIdFresh | src/lib/server/db.js:238-249 | the generated id differs from every existing record's id |
| Db.WithId | src/lib/server/db.js:144-146 | a record with a truthy id is stored as given; one with a falsy id gets exactly the id `generateId` makes, which no stored record has, and all its other fields are kept |
| Db.RemoveAt | src/lib/server/db.js:214 | `splice(i, 1)` removes exactly position `i` and keeps the order of the rest |
| Db.RemoveUniqueId | src/lib/server/db.js:211-215 | after removing the first record with a unique id, no record has that id, so a second remove finds nothing |
| Db.RemoveFirstUnique | src/lib/server/db.js:211-214 | removing the first match of a condition that holds at most once leaves no match |
| Db.FilterRecords | src/lib/server/db.js:79-85 | the loop over the filter parameters computes the filtered list |
| Db.SelectRecords | src/lib/server/db.js:65-108 | the filter, sort and page steps compute getAll's answer on a collection |
| Db.Store.constructor | src/lib/server/db.js:10-24 | the store holds the loaded document, whose keys are the valid resources |
| Db.Store.GetAll | src/lib/server/db.js:53-112 | getAll answers as GetAllOf over the current document and changes nothing |
| Db.Store.GetById | src/lib/server/db.js:120-128 | invalid and singleton resources give null; otherwise the first record with the id, and null exactly when no record has it |
| Db.Store.Create | src/lib/server/db.js:136-150 | invalid and singleton resources are refused and nothing changes; otherwise exactly one record is appended, with a fresh id when it had none, and no other resource changes |
| Db.Store.Replace | src/lib/server/db.js:159-173 | refused resources and unknown ids change nothing; otherwise only the matched position changes, to the new record with its id forced |
| Db.Store.Update | src/lib/server/db.js:182-196 | as Replace, but the matched record becomes the old record merged with the patch and the id forced |
| Db.Merge | src/lib/server/db.js:192-193 | the merged record keeps every old field the patch does not set, takes every patched field, and has the id |
| Db.Store.Remove | src/lib/server/db.js:204-216 | refused resources and unknown ids give false and change nothing; otherwise the first match is removed, the list shrinks by one and keeps its order |
| EndpointsData.RunsForSubmission | src/lib/utils/endpointsDataUtils.js:52-56 | a submission's runs are a permutation of the runs with its id, sorted ascending by concurrency, with ties in input order |
| EndpointsData.BuildParetoCurves | src/lib/utils/endpointsDataUtils.js:14-32 | one curve per submission, in order, with the submission's id and system id and its runs; a missing system gives the submission id as name and the default colour; the model is missing exactly when no model has the submission's model id |
| EndpointsData.CurveNameAndColor | src/lib/utils/endpointsDataUtils.js:16-26 | a found system is the first one with the id, and so is a found model; the system's name and colour are used, with fallbacks to the submission id and the default colour |
| EndpointsData.GetRecentSubmissions | src/lib/utils/endpointsDataUtils.js:40-44 | the first `limit` (default 10) submissions of the list sorted newest first, or all of them when there are fewer |
| EndpointsData.RecentSubmissionsStable | src/lib/utils/endpointsDataUtils.js:40-44 | submissions of equal date that are kept are the first ones of that date, in input order |
| EndpointsData.RecentSubmissionsAreNewest | src/lib/utils/endpointsDataUtils.js:40-44 | every submission left out is no newer than every submission listed |
| EndpointsData.GetModelLogoUrl | src/lib/utils/endpointsDataUtils.js:64-67 | exactly the logo of the first model with the submission's model id, or null when there is none |
| EndpointsData.GetHardwareLogoUrl | src/lib/utils/endpointsDataUtils.js:74-84 | `nvidia` is checked before `amd`, case-insensitively; the dark logo is chosen exactly for the dark theme; null when neither name occurs |
| EndpointsData.HardwareLogoIgnoresCase | src/lib/utils/endpointsDataUtils.js:75 | organisation names that differ only in case get the same logo |
| DataTransform.CurveOf | src/routes/pareto-charts/_components/dataTransform.js:29-32 | the curve kept for a system is the last one listed for it, and None when it has none |
| DataTransform.ParseSystemData | src/routes/pareto-charts/_components/dataTransform.js:23-66 | no systems give no data, and the output is never longer than the systems |
| DataTransform.KeptSystems | src/routes/pareto-charts/_components/dataTransform.js:41-65 | the systems kept are exactly those with a Pareto curve |
| DataTransform.ParsedSystems | src/routes/pareto-charts/_components/dataTransform.js:41-65 | one entry per kept system, in system order, with its fields and the data points of its curve |
| DataTransform.PointsOfCurve | src/routes/pareto-charts/_components/dataTransform.js:34-62 | a curve's points are a permutation of the points on that curve, flattened, sorted ascending by users, with ties in input order |
| DataTransform.PrepareTTFTChartData | src/routes/pareto-charts/_components/dataTransform.js:73-79 | one point per data point, in order, x the concurrent users and y the TTFT |
| DataTransform.PrepareThroughputInteractivityData | src/routes/pareto-charts/_components/dataTransform.js:86-97 | a permutation of the (interactivity, throughput) projections, sorted by x descending |
| DataTransform.PrepareNormalizedThroughputData | src/routes/pareto-charts/_components/dataTransform.js:104-110 | one point per data point, in order, x the concurrent users and y the normalized throughput |
| DataTransform.PrepareNormalizedTTFTData | src/routes/pareto-charts/_components/dataTransform.js:117-128 | a permutation of the (TTFT, normalized throughput) projections, sorted by x ascending |
| DataTransform.SortedProjectionsStable | src/routes/pareto-charts/_components/dataTransform.js:86-128 | both sorted charts keep points of equal x in the order of the system's data points |
| DataTransform.SortedProjectionsComeFromPoints | src/routes/pareto-charts/_components/dataTransform.js:86-128 | every point of the two sorted charts is the projection of one of the system's data points |
| DataTransform.GetSystemColor | src/routes/pareto-charts/_components/dataTransform.js:135-153 | the colour is palette entry `index mod 14` for a non-negative index; a negative index gives undefined unless it is a multiple of 14 |
| DataTransform.SystemColorPeriodic | src/routes/pareto-charts/_components/dataTransform.js:152 | the colours repeat every 14 systems |
| ParetoData.VendorName | src/lib/data/paretoData.js:119-137 | exactly the non-empty name of the last vendor with the id; the upper-cased id when no vendor has the id or its name is missing or empty |
| ParetoData.TransformViewModes | src/lib/data/paretoData.js:168-183 | the same modes, with `totalThroughput`, `utilization` and `tokensPerSecondPerUser` renamed to the point field names and every other field kept |
| ParetoData.ParseParetoData | src/lib/data/paretoData.js:109-190 | one series per hardware configuration, in order, with its vendor name and its points; annotations grouped by mode exactly as `GroupAnnotations` groups them; the view modes are the transformed ones, or the current ones when the document has none |
| ParetoData.SeriesPoints | src/lib/data/paretoData.js:125-151 | a series' points are a permutation of the renamed points of its configuration, sorted ascending by concurrent clients, with ties in input order |
| ParetoData.AnnotationsGrouped | src/lib/data/paretoData.js:154-165 | each mode's group is the annotations of that mode, stripped of it, in input order; every annotation lands in its mode's group |
| ParetoData.ViewOf | src/lib/data/paretoData.js:243-253 | a series projected for a view keeps its number of points |
| ParetoData.GetGlobalMaxThroughput | src/lib/data/paretoData.js:262-265 | 0 for no series; otherwise the largest max throughput, attained by some series |
| ParetoData.NormalizeToGlobalMax | src/lib/data/paretoData.js:272-283 | with a global maximum of 0 the input is returned unchanged; otherwise only each point's utilization changes, to its throughput as a percentage of the maximum |
| ParetoData.GenerateTradeoffView | src/lib/data/paretoData.js:291-305 | one series per input series, with the same labels, whose points are a permutation of its (tokens per user, throughput) points sorted by x descending |
| ParetoData.TradeoffViewStable | src/lib/data/paretoData.js:291-305 | points of equal interactivity keep their series order |
| ParetoData.TradeoffPointsFromSeries | src/lib/data/paretoData.js:297-303 | every tradeoff point is the projection of a point of its series |
| ParetoData.ParetoState.constructor | src/lib/data/paretoData.js:52-84 | no series or annotations, and the built-in view modes |
| ParetoData.ParetoState.Initialize | src/lib/data/paretoData.js:197-208 | the module state takes the parsed series, view modes and the three annotation groups, with a missing group empty |
| ParetoData.ParetoState.GetAnnotationsForView | src/lib/data/paretoData.js:215-226 | each of the three modes gets its annotations, and any other mode gets none |
| ParetoData.ParetoState.TransformForView | src/lib/data/paretoData.js:238-255 | an unknown mode gives None; otherwise every series and point in order, with x the concurrent clients, y the mode's field, and the compliance flag true only when set |
| ChartConfig.BuildChartConfig | src/lib/utils/chartConfigUtils.js:21-49 | one model per curve, in order, with the curve's id, name and colour and one point per run; scales default to log and linear; `subline` is present exactly when non-empty |
| ChartConfig.MetaKeepsRunFields | src/lib/utils/chartConfigUtils.js:29-35 | a point's metadata holds every run field with the run's value, and the curve's ids, system and model only under keys the run does not use |
| Colors.OrgColorIn | src/lib/constants/colors.js:44-46 | the table colour when present and non-empty, otherwise the fallback; never empty |
| Colors.OrgColorTable | src/lib/constants/colors.js:31-46 | the five listed organisations get their own colour and every other one the fallback `#64748b` |
| BenchmarkFilters.AsChoices | src/lib/stores/benchmarkFilters.svelte.js:264 | each value becomes an option whose id and label are that value, in order |
| BenchmarkFilters.ModelsOf | src/lib/stores/benchmarkFilters.svelte.js:261-265 | the models of the version's rows, each once, in the order they first appear among those rows |
| BenchmarkFilters.FirstModel | src/lib/stores/benchmarkFilters.svelte.js:393-394 | the model of the version's first row, or `''` when the version has none |
| BenchmarkFilters.Values | src/lib/stores/benchmarkFilters.svelte.js:281-308 | each value the field takes on the rows, once, starting with the first row's; every listed value occurs in some row before any row gives a value listed after it |
| BenchmarkFilters.ChoicesOfValues | src/lib/stores/benchmarkFilters.svelte.js:261-308 | the options built from a field's distinct values are labelled by their ids, have no repeated id, offer exactly the values the rows take, and keep their first-appearance order |
| BenchmarkFilters.AvailableModels | src/lib/stores/benchmarkFilters.svelte.js:261-265 | the options are the models of the selected version's rows, each once, in first-appearance order |
| BenchmarkFilters.AvailableScenarios | src/lib/stores/benchmarkFilters.svelte.js:279-283 | the options are the scenarios of the rows of the selected version and model, each once, in first-appearance order |
| BenchmarkFilters.AvailableOrganizations | src/lib/stores/benchmarkFilters.svelte.js:289-295 | the options are the organisations of those rows admitted by the scenario selection, each once, in first-appearance order |
| BenchmarkFilters.AvailableAccelerators | src/lib/stores/benchmarkFilters.svelte.js:301-308 | the options are the accelerators of those rows admitted by the organisation selection, each once, in first-appearance order |
| BenchmarkFilters.AcceleratorCountValues | src/lib/stores/benchmarkFilters.svelte.js:315-322 | strictly increasing, and exactly the counts of the rows admitted by version, model, scenarios, organisations and accelerators |
| BenchmarkFilters.CountsOfAdmitted | src/lib/stores/benchmarkFilters.svelte.js:322 | the counts listed are exactly those of the admitted rows |
| BenchmarkFilters.SortedDistinctIncreasing | src/lib/stores/benchmarkFilters.svelte.js:322 | sorting distinct counts ascending gives a strictly increasing list of the same counts |
| BenchmarkFilters.AvailableAcceleratorCounts | src/lib/stores/benchmarkFilters.svelte.js:315-324 | one option per available count, in ascending order, labelled with its decimal text |
| BenchmarkFilters.FilteredResults | src/lib/stores/benchmarkFilters.svelte.js:330-346 | exactly the rows that pass every filter; each has the selected version, and the selected model when one is set |
| BenchmarkFilters.FilteredResultsInOrder | src/lib/stores/benchmarkFilters.svelte.js:330-346 | the filtered rows are a subsequence of the table |
| BenchmarkFilters.EmptySelectionsAdmitAll | src/lib/stores/benchmarkFilters.svelte.js:332-345 | with no model and empty selections, only the version filters |
| BenchmarkFilters.MaxOf | src/lib/stores/benchmarkFilters.svelte.js:538 | `Math.max` of a non-empty list is an element of it and no smaller than any element |
| BenchmarkFilters.MaxPerformance | src/lib/stores/benchmarkFilters.svelte.js:537-538 | 0 for no results, otherwise the largest performance among them |
| BenchmarkFilters.FilteredStats | src/lib/stores/benchmarkFilters.svelte.js:533-548 | the total is the number of filtered results, the unique counts are the numbers of distinct organisations and accelerators among them, and the max is 0 when there are none |
| BenchmarkFilters.InitialModel | src/lib/stores/benchmarkFilters.svelte.js:553-558 | on the sample table the store starts on `llama3.1-8b-datacenter` |
| BenchmarkFilters.Toggle | src/lib/stores/benchmarkFilters.svelte.js:417-423 | the toggled value is selected afterwards exactly when it was not, and no other value changes |
| BenchmarkFilters.ToggleTwice | src/lib/stores/benchmarkFilters.svelte.js:417-483 | toggling twice restores which values are selected, and restores the list itself when the value was absent |
| BenchmarkFilters.FilterStore.constructor | src/lib/stores/benchmarkFilters.svelte.js:220-235 | version v5.1 with its first model, both scenarios, nothing else selected |
| BenchmarkFilters.FilterStore.SetVersion | src/lib/stores/benchmarkFilters.svelte.js:390-399 | the new version with its first model, both scenarios, and the lower selections cleared |
| BenchmarkFilters.FilterStore.SetModel | src/lib/stores/benchmarkFilters.svelte.js:405-411 | the new model; version and scenarios kept; the lower selections cleared |
| BenchmarkFilters.FilterStore.ToggleScenario | src/lib/stores/benchmarkFilters.svelte.js:417-423 | only the scenarios change, by a toggle |
| BenchmarkFilters.FilterStore.SetScenarios | src/lib/stores/benchmarkFilters.svelte.js:429-431 | only the scenarios change |
| BenchmarkFilters.FilterStore.ToggleOrganization | src/lib/stores/benchmarkFilters.svelte.js:437-443 | only the organisations change, by a toggle |
| BenchmarkFilters.FilterStore.SetOrganizations | src/lib/stores/benchmarkFilters.svelte.js:449-451 | only the organisations change |
| BenchmarkFilters.FilterStore.ToggleAccelerator | src/lib/stores/benchmarkFilters.svelte.js:457-463 | only the accelerators change, by a toggle |
| BenchmarkFilters.FilterStore.SetAccelerators | src/lib/stores/benchmarkFilters.svelte.js:469-471 | only the accelerators change |
| BenchmarkFilters.FilterStore.ToggleAcceleratorCount | src/lib/stores/benchmarkFilters.svelte.js:477-483 | only the accelerator counts change, by a toggle |
| BenchmarkFilters.FilterStore.SetAcceleratorCounts | src/lib/stores/benchmarkFilters.svelte.js:489-491 | only the accelerator counts change |
| BenchmarkFilters.FilterStore.SelectAllOrganizations | src/lib/stores/benchmarkFilters.svelte.js:496-499 | the organisations become every organisation still available; nothing else changes |
| BenchmarkFilters.FilterStore.ResetFilters | src/lib/stores/benchmarkFilters.svelte.js:504-512 | the initial selection again |
| BenchmarkFilters.FilterStore.ClearFilters | src/lib/stores/benchmarkFilters.svelte.js:517-523 | the version is kept and everything else is emptied |
| ChartBuilder.GetNextColor | src/lib/stores/chartBuilder.svelte.js:67-70 | always a palette colour: the first one no layer uses, or the palette cycled by layer count when all are used |
| ChartBuilder.NextColorIsFresh | src/lib/stores/chartBuilder.svelte.js:67-70 | with fewer layers than palette colours, the new colour differs from every layer's |
| ChartBuilder.RemoveDropsAtMostOne | src/lib/stores/chartBuilder.svelte.js:202-205 | with distinct ids, removing an id drops at most one layer |
| ChartBuilder.RemoveKeepsIdsDistinct | src/lib/stores/chartBuilder.svelte.js:202-205 | removing an id keeps the remaining ids distinct |
| ChartBuilder.UpdateWhere | src/lib/stores/chartBuilder.svelte.js:212-249 | the same number of layers, in order, with only those with the id changed |
| ChartBuilder.UpdateKeepsIds | src/lib/stores/chartBuilder.svelte.js:212-249 | an update that keeps ids keeps them distinct |
| ChartBuilder.ApplyPatch | src/lib/stores/chartBuilder.svelte.js:215 | a layer patch never changes the layer's id |
| ChartBuilder.ToggleVisibilityTwice | src/lib/stores/chartBuilder.svelte.js:242-249 | toggling a layer's visibility twice restores the list |
| ChartBuilder.Moved | src/lib/stores/chartBuilder.svelte.js:256-266 | a move keeps the length and is a permutation of the layers |
| ChartBuilder.MovedKeepsIds | src/lib/stores/chartBuilder.svelte.js:256-266 | a move keeps the ids distinct |
| ChartBuilder.MovedAt | src/lib/stores/chartBuilder.svelte.js:256-266 | the first layer with the id is swapped with its neighbour in the direction, and a move past either end changes nothing |
| ChartBuilder.MoveUpThenDown | src/lib/stores/chartBuilder.svelte.js:256-266 | moving a layer that is not first up and then down restores the list |
| ChartBuilder.MemberValue | src/lib/stores/chartBuilder.svelte.js:320 | an object's member is the last with the key, as `JSON.parse` keeps it, or undefined when there is none |
| ChartBuilder.GetValueAtPath | src/lib/stores/chartBuilder.svelte.js:318-321 | the empty path gives the object itself, and a path without a dot gives that property |
| ChartBuilder.FollowUndefined | src/lib/stores/chartBuilder.svelte.js:320 | once undefined, `?.` keeps the rest of the path undefined |
| ChartBuilder.FollowAppend | src/lib/stores/chartBuilder.svelte.js:320 | following a path in two pieces is following it at once |
| ChartBuilder.ValueAtDottedPath | src/lib/stores/chartBuilder.svelte.js:318-321 | a dotted path is read by its first segment and then the rest |
| ChartBuilder.DataArray | src/lib/stores/chartBuilder.svelte.js:329-337 | a layer has data exactly when it has a truthy response, both x and y properties, and an array at its data path |
| ChartBuilder.ExtractLayerData | src/lib/stores/chartBuilder.svelte.js:328-345 | no array gives no points; a null item throws; otherwise one point per item with x the x property, y its number or 0, the label property or `String(x)` as label, and the layer's colour |
| ChartBuilder.NumberOfIntegerText | src/lib/stores/chartBuilder.svelte.js:341 | `Number(s) \|\| 0` reads back any integer's decimal text, with white space around it |
| ChartBuilder.NumberOfSingletonArray | src/lib/stores/chartBuilder.svelte.js:341 | an array holding one number reads as that number |
| ChartBuilder.NonNumericTextIsZero | src/lib/stores/chartBuilder.svelte.js:341 | text with a character other than a digit or a leading sign is NaN, so y is 0 |
| ChartBuilder.VisibleLayers | src/lib/stores/chartBuilder.svelte.js:135-137 | exactly the visible layers |
| ChartBuilder.AllChartData | src/lib/stores/chartBuilder.svelte.js:351-358 | throws exactly when some visible layer's extraction throws; otherwise one entry per visible layer, in order, with its id, name, colour and extracted data |
| ChartBuilder.AnalyzeJsonStructure | src/lib/stores/chartBuilder.svelte.js:370-395 | an array reports itself alone (when non-empty) and is not descended into; a value that is neither array nor object reports nothing |
| ChartBuilder.AnalyzedPathsLeadToArrays | src/lib/stores/chartBuilder.svelte.js:370-395 | every path reported by the analysis leads through object keys to a non-empty array, whose first item is the sample and whose entries are that item's properties |
| ChartBuilder.AnalyzedEntryIsArray | src/lib/stores/chartBuilder.svelte.js:370-395 | every entry reported below a value is found by following some keys from it |
| ChartBuilder.ReachedIsAnalyzed | src/lib/stores/chartBuilder.svelte.js:370-395 | every non-empty array reached from a value through object members is reported, under the path of those members |
| ChartBuilder.ArraysAtPathsAreAnalyzed | src/lib/stores/chartBuilder.svelte.js:370-395 | conversely, every non-empty array `getValueAtPath` finds along object members is reported from the top under that path, with its first item as sample |
| ChartBuilder.ApplyConfigPatch | src/lib/stores/chartBuilder.svelte.js:180-182 | each given field replaces the config's, every other field is kept, and an empty patch changes nothing |
| ChartBuilder.FailureMessage | src/lib/stores/chartBuilder.svelte.js:289-304 | an HTTP failure's message is `HTTP <status>: <statusText>`, a thrown Error's is its own message, and a thrown non-error gives `Failed to fetch data` |
| ChartBuilder.HttpFailureMessageParts | src/lib/stores/chartBuilder.svelte.js:290-291 | an HTTP failure's message reads back: the status numeral up to the first colon, and the status text after `: ` |
| ChartBuilder.FetchSettles | src/lib/stores/chartBuilder.svelte.js:278-306 | after a fetch the layer has the endpoint and is not loading; it holds the data and no error, or no response and the failure message; the rest of the layer is unchanged |
| ChartBuilder.BuildChartPayload | src/lib/stores/chartBuilder.svelte.js:405-418 | the chart type and config as given, and one saved layer per layer, in order, holding exactly its id, name, endpoint, mapping and visibility |
| ChartBuilder.Builder.constructor | src/lib/stores/chartBuilder.svelte.js:99-109 | a bar chart, the default config and one empty layer named `Layer 1` in the first palette colour |
| ChartBuilder.Builder.GetVisibleLayers | src/lib/stores/chartBuilder.svelte.js:135-137 | the visible layers, as a subsequence of the layers |
| ChartBuilder.Builder.GetLayer | src/lib/stores/chartBuilder.svelte.js:144-146 | the layer with the id, and None exactly when there is none |
| ChartBuilder.Builder.SetChartType | src/lib/stores/chartBuilder.svelte.js:172-174 | only the chart type changes |
| ChartBuilder.Builder.SetChartConfig | src/lib/stores/chartBuilder.svelte.js:180-182 | only the config changes, by the patch |
| ChartBuilder.Builder.AddLayer | src/lib/stores/chartBuilder.svelte.js:192-196 | exactly one new empty layer is appended and its id returned; its colour is unused when fewer than 8 layers existed; ids stay distinct |
| ChartBuilder.Builder.RemoveLayer | src/lib/stores/chartBuilder.svelte.js:202-205 | nothing changes when at most one layer exists; otherwise the layers with the id are removed; at least one layer always remains |
| ChartBuilder.Builder.UpdateLayer | src/lib/stores/chartBuilder.svelte.js:212-219 | only the layers with the id change, by the patch; ids stay distinct |
| ChartBuilder.Builder.UpdateLayerMapping | src/lib/stores/chartBuilder.svelte.js:226-236 | only the mapping of the layers with the id changes, by the patch |
| ChartBuilder.Builder.ToggleLayerVisibility | src/lib/stores/chartBuilder.svelte.js:242-249 | only the visibility of the layers with the id flips |
| ChartBuilder.Builder.MoveLayer | src/lib/stores/chartBuilder.svelte.js:256-266 | the layers become the moved list; ids stay distinct and at least one layer remains |
| ChartBuilder.Builder.StartLayerFetch | src/lib/stores/chartBuilder.svelte.js:278-284 | up to the await, the layer with the id gets the start-of-fetch patch; other layers, the chart type and the config are unchanged |
| ChartBuilder.Builder.FinishLayerFetch | src/lib/stores/chartBuilder.svelte.js:286-305 | after the await, the layer with the id, if it is still there, gets the patch of the request's outcome |
| ChartBuilder.FetchStarts | src/lib/stores/chartBuilder.svelte.js:278-284 | while the request is pending the layer is loading with the new endpoint, no response and no error |
| ChartBuilder.StaleResponseWins | src/lib/stores/chartBuilder.svelte.js:278-305 | when a layer's first response arrives after a second fetch started, the layer shows it under the second endpoint and stops loading |
| ChartBuilder.Builder.ChartPayload | src/lib/stores/chartBuilder.svelte.js:405-418 | the payload of the builder's current chart type, config and layers |
| ChartBuilder.Builder.ResetChartBuilder | src/lib/stores/chartBuilder.svelte.js:423-431 | a bar chart, the default config and one fresh empty layer |
| TimelineRange.ClampStart | src/lib/stores/timelineRange.svelte.js:55-57 | the start is at least `min`; it is at most `end - 1` whenever `min <= end - 1`; a value already in range is kept |
| TimelineRange.ClampEnd | src/lib/stores/timelineRange.svelte.js:63-65 | the end is at most `max`; it is at least `start + 1` whenever `start + 1 <= max`; a value already in range is kept |
| TimelineRange.Dragged | src/lib/stores/timelineRange.svelte.js:72-86 | the width is always kept; a start below `min` pins the start to `min`, otherwise an end above `max` pins the end to `max` |
| TimelineRange.DraggedStaysInside | src/lib/stores/timelineRange.svelte.js:72-86 | a window no wider than the bounds stays inside them |
| TimelineRange.DraggedInsideIsIdentity | src/lib/stores/timelineRange.svelte.js:72-86 | a window already inside the bounds is not moved |
| TimelineRange.Range.constructor | src/lib/stores/timelineRange.svelte.js:16-25 | bounds 0 and 200, window 0 to 200 |
| TimelineRange.Range.VisibleRange | src/lib/stores/timelineRange.svelte.js:39-41 | the visible range is the current window |
| TimelineRange.Range.FullRange | src/lib/stores/timelineRange.svelte.js:47-49 | the full range is the current bounds |
| TimelineRange.Range.SetStart | src/lib/stores/timelineRange.svelte.js:55-57 | only the start changes, to the clamped value |
| TimelineRange.Range.SetEnd | src/lib/stores/timelineRange.svelte.js:63-65 | only the end changes, to the clamped value |
| TimelineRange.Range.SetRange | src/lib/stores/timelineRange.svelte.js:72-86 | the window becomes the dragged window; the bounds are kept |
| TimelineRange.Range.InitRange | src/lib/stores/timelineRange.svelte.js:95-100 | new bounds, and a window that defaults to them |
| TimelineRange.Range.ResetRange | src/lib/stores/timelineRange.svelte.js:105-108 | the window becomes the bounds |
| AxisSelector.OptionFor | src/lib/stores/axisSelector.svelte.js:89-99 | the option with the id, and None exactly when the table has none |
| AxisSelector.ChartData | src/lib/stores/axisSelector.svelte.js:145-170 | no points without both options and a first system with points; otherwise a permutation of the non-zero projections of the first system's points, sorted by x, and no longer than them |
| AxisSelector.SortedNonZero | src/lib/stores/axisSelector.svelte.js:162-169 | the x order is a total preorder, and sorting adds no points |
| AxisSelector.ChartDataFromFirstSystem | src/lib/stores/axisSelector.svelte.js:149-169 | every plotted point projects a point of the first system, missing fields read as 0, and points with equal x keep their order |
| AxisSelector.ChartTitle | src/lib/stores/axisSelector.svelte.js:176-183 | `<Y label> vs <X label>`, or `Custom Chart` when an option is unknown |
| AxisSelector.OptionAt | src/lib/stores/axisSelector.svelte.js:89-91 | the option found for an id is the first one listed with it |
| AxisSelector.InitialTitle | src/lib/stores/axisSelector.svelte.js:26-42 | the initial axes give the title `TTFT (ms) vs # Concurrent Users` |
| AxisSelector.LogScaleAxesAreKnown | src/lib/stores/axisSelector.svelte.js:189-199 | a log X axis is the users axis, and a log Y axis is one of the two throughput axes |
| AxisSelector.AxisStore.constructor | src/lib/stores/axisSelector.svelte.js:39-47 | X `concurrent-users`, Y `ttft`, no systems, loading |
| AxisSelector.AxisStore.SetSelectedXAxis | src/lib/stores/axisSelector.svelte.js:109-111 | only the X axis changes |
| AxisSelector.AxisStore.SetSelectedYAxis | src/lib/stores/axisSelector.svelte.js:117-119 | only the Y axis changes |
| AxisSelector.AxisStore.SetSystemsData | src/lib/stores/axisSelector.svelte.js:125-127 | only the systems change |
| AxisSelector.AxisStore.SetLoading | src/lib/stores/axisSelector.svelte.js:133-135 | only the loading flag changes |
| AxisSelector.AxisStore.GetChartData | src/lib/stores/axisSelector.svelte.js:145-170 | `ChartData` of the options with the selected ids and the store's systems, so the first system's non-zero projections sorted by x; no points when either selected axis is unknown or there are no systems |
| AxisSelector.AxisStore.GetChartTitle | src/lib/stores/axisSelector.svelte.js:176-183 | `Custom Chart` when either selected axis is unknown; otherwise the labels of the first Y and X options with the selected ids, joined by ` vs ` |
| ChartFilters.LabelOr | src/lib/stores/chartFilters.svelte.js:184 | the label of the first option with the id, or the id itself |
| ChartFilters.FilterSubtitle | src/lib/stores/chartFilters.svelte.js:183-186 | the subtitle starts with the model's label or raw id and the separator |
| ChartFilters.SubtitleSplits | src/lib/stores/chartFilters.svelte.js:183-186 | when no part holds a bullet, the subtitle splits at its bullets back into the model label, the precision, the sequence lengths and the source note |
| ChartFilters.FilterStore.GetFilterSubtitle | src/lib/stores/chartFilters.svelte.js:183-186 | the store's subtitle starts with the current model's label and, when no part holds a bullet, splits back into the label, precision, sequence lengths and source note |
| ChartFilters.DefaultSubtitle | src/lib/stores/chartFilters.svelte.js:69-74 | the default filters give `gpt-oss 120B • FP4 • 1k/8k • Source: …` |
| ChartFilters.FilterStore.constructor | src/lib/stores/chartFilters.svelte.js:69-81 | the default filters and the `utilization` view mode |
| ChartFilters.FilterStore.SetParetoViewMode | src/lib/stores/chartFilters.svelte.js:103-105 | only the view mode changes |
| ChartFilters.FilterStore.SetModel | src/lib/stores/chartFilters.svelte.js:119-121 | only the model filter changes |
| ChartFilters.FilterStore.SetIslOsl | src/lib/stores/chartFilters.svelte.js:135-137 | only the sequence-length filter changes |
| ChartFilters.FilterStore.SetPrecision | src/lib/stores/chartFilters.svelte.js:151-153 | only the precision filter changes |
| ChartFilters.FilterStore.SetYAxisMetric | src/lib/stores/chartFilters.svelte.js:167-169 | only the metric filter changes |
| ChartFilters.FilterStore.ResetFilters | src/lib/stores/chartFilters.svelte.js:174-177 | the defaults and the `utilization` mode again |
| ChartSettings.AllVisible | src/lib/stores/chartSettings.svelte.js:16 | an entry for exactly the listed ids, each true |
| ChartSettings.ToggledModel | src/lib/stores/chartSettings.svelte.js:52-54 | the id gets an entry and every other entry is kept |
| ChartSettings.ToggleModelMeaning | src/lib/stores/chartSettings.svelte.js:44-54 | a known id's visibility flips and toggling twice restores the map; an absent id is stored as visible and stays visible |
| ChartSettings.InitiallyAllVisible | src/lib/stores/chartSettings.svelte.js:16-46 | initially every id is visible, whether or not the table lists it |
| ChartSettings.Settings.constructor | src/lib/stores/chartSettings.svelte.js:16-25 | every model visible and both flags false |
| ChartSettings.Settings.IsModelVisible | src/lib/stores/chartSettings.svelte.js:44-46 | a model is hidden exactly when its entry is present and false |
| ChartSettings.Settings.ToggleModel | src/lib/stores/chartSettings.svelte.js:52-54 | only the visibility map changes, by the toggle |
| ChartSettings.Settings.ToggleNonOptimal | src/lib/stores/chartSettings.svelte.js:59-61 | only the non-optimal flag flips |
| ChartSettings.Settings.ToggleLabels | src/lib/stores/chartSettings.svelte.js:74-76 | only the labels flag flips |
| ChartSettings.Settings.ResetSettings | src/lib/stores/chartSettings.svelte.js:89-93 | the initial visibility and both flags false |
| PageSettings.PageStore.constructor | src/lib/stores/pageSettings.svelte.js:15-82 | sort `original`, annotations shown, every other flag off |
| PageSettings.PageStore.SetBarSortOrder | src/lib/stores/pageSettings.svelte.js:35-37 | only the sort order changes |
| PageSettings.PageStore.SetShowLineOverlay | src/lib/stores/pageSettings.svelte.js:51-53 | only the line overlay flag changes |
| PageSettings.PageStore.SetShowThresholds | src/lib/stores/pageSettings.svelte.js:67-69 | only the thresholds flag changes |
| PageSettings.PageStore.SetShowParetoInterpolation | src/lib/stores/pageSettings.svelte.js:96-98 | only the interpolation flag changes |
| PageSettings.PageStore.SetShowParetoAnnotations | src/lib/stores/pageSettings.svelte.js:112-114 | only the annotations flag changes |
| PageSettings.PageStore.SetShowParetoIdealLine | src/lib/stores/pageSettings.svelte.js:128-130 | only the ideal line flag changes |
| PageSettings.PageStore.ResetPageSettings | src/lib/stores/pageSettings.svelte.js:139-149 | all six settings return to their defaults |
| Theme.Toggled | src/lib/stores/theme.svelte.js:31-33 | light becomes dark, and anything else becomes light |
| Theme.ToggleTwice | src/lib/stores/theme.svelte.js:31-33 | toggling twice from light or dark restores it |
| Theme.InitialTheme | src/lib/stores/theme.svelte.js:39-47 | a `light` or `dark` cookie wins; otherwise the colour-scheme preference decides, and without a window the theme is unchanged |
| Theme.ThemeStore.constructor | src/lib/stores/theme.svelte.js:6 | the theme starts light |
| Theme.ThemeStore.SetTheme | src/lib/stores/theme.svelte.js:20-26 | the theme becomes the value |
| Theme.ThemeStore.ToggleTheme | src/lib/stores/theme.svelte.js:31-33 | the theme becomes its toggle |
| Theme.ThemeStore.InitTheme | src/lib/stores/theme.svelte.js:39-47 | the theme becomes the initial theme for the cookie and preference |
| Navigation.ActiveMeaning | src/lib/data/navigation.js:25-28 | an `exact` item is active exactly on its href; any other item, including one without a match type, exactly below its href |
| Navigation.ActiveOnOwnHref | src/lib/data/navigation.js:25-28 | every item is active on its own href |
| Navigation.NavTable | src/lib/data/navigation.js:12-17 | Home is active only on `/`, Benchmarks on every path below its href, and only Test Manager and Admin Tools are disabled |
| BenchmarkData.ModelIds | src/lib/data/benchmarkData.js:78 | the ids of the table, in order |
| BenchmarkData.ModelById | src/lib/data/benchmarkData.js:85 | a model with the id, and undefined exactly when none has it |
| BenchmarkData.TableIds | src/lib/data/benchmarkData.js:7-78 | the four ids in table order, all distinct |
| BenchmarkData.ModelByIdExact | src/lib/data/benchmarkData.js:85 | with distinct ids, the model found for an id is the one listed with it |
| BenchmarkData.PointsTrendUpward | src/lib/data/benchmarkData.js:3-72 | every model has the same nine latencies, strictly increasing, and throughput strictly increasing with them |
| Placeholders.Lookup | src/lib/data/placeholders.js:215-223 | `table[key] ?? fallback`: the table's entry when present, else the fallback |
| Placeholders.Int32 | src/lib/data/placeholders.js:196 | `x & x` is the 32-bit signed integer congruent to `x` modulo 2^32 |
| Placeholders.Int32Congruent | src/lib/data/placeholders.js:195-196 | values equal modulo 2^32 wrap to the same 32-bit integer |
| Placeholders.HashStepIsTimes31 | src/lib/data/placeholders.js:195-196 | `(h << 5) - h + c`, then `& itself`, is `h * 31 + c` in 32-bit arithmetic |
| Placeholders.Hash | src/lib/data/placeholders.js:192-197 | the hash is a 32-bit signed integer |
| Placeholders.Seed | src/lib/data/placeholders.js:190-199 | the seed is non-negative and at most 2^31 |
| Placeholders.GenerateSeed | src/lib/data/placeholders.js:190-199 | the hash loop computes the seed of the joined filter key |
| Placeholders.LcgRange | src/lib/data/placeholders.js:175 | from a non-negative seed the next state is in [0, 233280) |
| Placeholders.DrawRange | src/lib/data/placeholders.js:173-178 | every draw from a non-negative seed is in [0, 1) |
| Placeholders.LcgIterateRange | src/lib/data/placeholders.js:175 | the state stays non-negative, and below the modulus after the first draw |
| Placeholders.SeededRandom.constructor | src/lib/data/placeholders.js:173 | the generator starts at its seed with no draws made |
| Placeholders.SeededRandom.Next | src/lib/data/placeholders.js:174-177 | each call advances the captured seed one step and returns the k-th draw, in [0, 1) for a non-negative seed |
| Placeholders.ClampedPoint | src/lib/data/placeholders.js:262-265 | a point is at least `minX` across and at least 100 up |
| Placeholders.LatencyPoint | src/lib/data/placeholders.js:245-266 | a latency point has `x >= 1` and `y >= 100` |
| Placeholders.InteractivityPoint | src/lib/data/placeholders.js:314-338 | an interactivity point has `x >= 5` and `y >= 100` |
| Placeholders.LatencyPoints | src/lib/data/placeholders.js:212-267 | nine latency points, each with `x >= 1` and `y >= 100` |
| Placeholders.InteractivityPoints | src/lib/data/placeholders.js:276-339 | nine interactivity points, each with `x >= 5` and `y >= 100` |
| Placeholders.FailureRate | src/lib/data/placeholders.js:354-383 | the bar carries the GPU id, its name or the id, its colour or `#64748b`, and a rate in [0.5, 15] |
| Placeholders.GpuReliabilityData | src/lib/data/placeholders.js:351-384 | one bar per GPU configuration, in order, named and coloured from the tables, with its rate in [0.5, 15] |
| Placeholders.LatencySeries | src/lib/data/placeholders.js:411-427 | one series per GPU configuration, in order, each with nine bounded latency points |
| Placeholders.InteractivitySeries | src/lib/data/placeholders.js:411-439 | one series per GPU configuration, in order, each with nine bounded interactivity points |
| Placeholders.GenerateChartData | src/lib/data/placeholders.js:400-455 | both line charts have one series per GPU configuration, in order, with nine bounded points each; the reliability chart has one bar per configuration; both subtitles are the filter subtitle, and the Y label falls back to the per-GPU throughput label |
| Placeholders.SubtitleModelName | src/lib/data/placeholders.js:404-405 | the subtitle names a listed model by its display name and any other by its raw id |
| BenchmarkService.RejectedNoneIffAccepted | src/lib/services/benchmarkService.js:19-33 | no property fails exactly when all four hold an accepted id, and at most four properties fail |
| BenchmarkService.SafeParse | src/lib/services/benchmarkService.js:19-46 | parsing succeeds exactly on accepted input and yields its four values; a non-object gives one pathless issue; otherwise one issue per failing property, in schema order |
| BenchmarkService.IssuePathRoundTrip | src/lib/services/benchmarkService.js:50 | an issue path reads back as its keys when split at dots, and a pathless issue reads `unknown` |
| BenchmarkService.ValidateFilters | src/lib/services/benchmarkService.js:45-57 | valid exactly on the whitelist, with the four validated values; otherwise one issue per failing property with its key as path, or one `unknown` issue for a non-object |
| BenchmarkService.DefaultFiltersAccepted | src/lib/services/benchmarkService.js:19-33 | the chart filters' defaults pass validation unchanged |
| BenchmarkService.IssueList | src/lib/services/benchmarkService.js:81 | one issue is described on its own; with several, the message starts with the first issue's description and `, `, and every issue's description occurs in it |
| BenchmarkService.GetBenchmarkData | src/lib/services/benchmarkService.js:76-87 | accepted filters give the generator's chart data; anything else throws `Invalid filter parameters: ` followed by the list of every validation issue |
| BenchmarkService.SimulateApiRequest | src/lib/services/benchmarkService.js:103-140 | accepted filters give ok, 200, `OK`, the data and no error; anything else gives 400, `Bad Request`, no data and the validation issues |
| BenchmarkService.SimulateMatchesService | src/lib/services/benchmarkService.js:76-140 | the simulated request succeeds exactly when the service call does, with the same data |
| BenchmarkService.EndpointUrlRoundTrip | src/lib/services/benchmarkService.js:148-157 | the URL starts `/api/benchmarks?` and splits back into the model, islOsl, precision and yAxisMetric parameters, in that order, each with its encoded value |
| BenchmarkService.ParamSplits | src/lib/services/benchmarkService.js:149-154 | a `name=value` pair holds no `&` and splits back into its name and encoded value |
| BenchmarkService.PlaceholderService | src/lib/services/benchmarkService.js:76-87 | with the placeholder generator, accepted filters give charts of one bounded series and one bar per GPU configuration |
| ChartUtils.MagnitudeBands | src/routes/pareto-charts/_components/chartUtils.js:14-19 | the four branches of formatYAxis split the reals into consecutive bands at 1, 1000 and 1000000 |
| ChartUtils.FormatYAxis | src/routes/pareto-charts/_components/chartUtils.js:14-19 | the label always ends with the unit; millions use `M`, thousands `k`, values below 1 one decimal, and the rest `Math.round(value)` (1 to 1000) in decimal |
| ChartUtils.CreateMargins | src/routes/pareto-charts/_components/chartUtils.js:26-33 | top 30 and bottom 60; right 12 or 30 and left 60 or 70, for mobile or not |
| ChartUtils.GetInnerDimensions | src/routes/pareto-charts/_components/chartUtils.js:42-47 | the inner size plus the margins is the outer size, in both directions |
| ChartUtils.StandardInnerDimensions | src/routes/pareto-charts/_components/chartUtils.js:26-47 | with the standard margins the plot is 72 or 100 narrower and 90 shorter than the chart |
| ChartUtils.CandidatesArePowers | src/routes/pareto-charts/_components/chartUtils.js:75 | the candidate ticks are 2^0 to 2^12 in order |
| ChartUtils.Pow2Increasing | src/routes/pareto-charts/_components/chartUtils.js:75 | powers of two grow with the exponent |
| ChartUtils.CandidateTicks | src/routes/pareto-charts/_components/chartUtils.js:75 | the candidates increase and are exactly the powers of two up to 4096 |
| ChartUtils.GetLogTicks | src/routes/pareto-charts/_components/chartUtils.js:74-78 | exactly the powers of two from 1 to 4096 that lie in [min, max], ascending |

## Left out

- Paging follows the code, not the usual reading of the API. `_page` and `_limit` are not required to be positive numbers. NaN, zero and negative values go through `parseInt` and `slice` exactly as JavaScript evaluates them (`Db.Paging`, `Db.SliceIndex`, `Db.JsSlice`). Only the page-shape lemmas assume `page >= 1` and `limit >= 0`.
- Reading the seed file and parsing its JSON are not modelled. The store takes the loaded document as a constructor argument.
- `fetch` is not modelled in `fetchParetoData`, `initializeParetoData` or `fetchLayerData`. `fetchLayerData` is split at its await into `ChartBuilder.Builder.StartLayerFetch` and `ChartBuilder.Builder.FinishLayerFetch`, and any builder calls may run between the two. `ChartBuilder.Builder.FinishLayerFetch` takes the request's outcome as a parameter, and `ParetoData.ParetoState.Initialize` takes the parsed document.
- Cookie writes and `matchMedia` are browser plumbing. `Theme.InitialTheme` takes the colour-scheme preference as an optional parameter (None when there is no window).
- The delay, `performance.now` and `latencyMs` of `simulateApiRequest`, and `createdAt` of `buildChartPayload`, are timing. They are left out.
- Random ids (`Math.random`, `crypto.randomUUID`, `generateClipPathId`) are left out. `ChartBuilder.Builder.AddLayer`, the constructor and `ResetChartBuilder` take a fresh id as a parameter.
- The `generateId` fallback for resources without a prefix rule is not modelled. Every resource uses the prefix rule.
- `ChartBuilder.Builder.AddLayer` requires an id that no layer uses, standing in for the random id's freshness.
- Floating point in the chart layout helpers, the Pareto utilisation and the placeholder noise is modelled as exact reals. JSON numbers, in the store and the chart builder, are integers. Integer-valued quantities are unbounded integers.
- `Math.pow` in the placeholder curves is a parameter.
- `toFixed` in `formatYAxis` is a parameter.
- The d3 scale and line generators are library calls and are not modelled. `calculateDomain` and `calculateLogDomain` are floating-point domain arithmetic over the data (minimum, maximum and padding, `Math.log10` and `Math.pow`), and are left out with the rest of the floating-point code. `formatTooltipValue` is a formatting wrapper around `formatYAxis`, which is modelled, and is left out.
- `calculateNormalizedThroughput` is not part of this model.
- The valibot schema library is abstracted. Its issue message text is a parameter, and issues come one per failing property in schema order, the order valibot reports them for an object schema. The message is assumed to depend only on the property's key (or on its absence, for a non-object input). valibot's default messages also quote the received value, and `BenchmarkService.Messages` cannot see it, so the model does not capture issue texts that differ by received value.
- `URLSearchParams` value encoding (the application/x-www-form-urlencoded serializer of section 5.2 of the WHATWG URL Standard) is a parameter of `BenchmarkService.BuildEndpointUrl`.
- `getBenchmarkData` and `simulateApiRequest` take the chart generator as a parameter. `BenchmarkService.PlaceholderService` puts the placeholder generator in its place.
- Submission dates are an ordered integer key rather than `Date` values.
- Strings are sequences of characters. `charCodeAt` is a character's code, which assumes UTF-16 code units.
- Case-insensitive matching uses ASCII case mapping.
- The records of the store hold strings, integers and nested objects. Arrays, booleans, `null` and fractional numbers are not modelled.
- Field values are compared by one total order: undefined < integers < strings < objects, integers numerically and strings by code unit. JavaScript's `<` between mixed types is not modelled.
- `String()` of a nested object is `[object Object]`, as in JavaScript, so a filter value of that text matches it.
- Inherited properties such as `__proto__` or `constructor` are not found by any keyed lookup. Only an object's own entries are. This covers the dot-path lookup and the `obj[key]` table lookups: `Colors.OrgColorIn` (`orgColors[org] || fallback`) and `Placeholders.Lookup` (`table[key] ?? fallback`, used for the model names, GPU names and colours, failure rates and multiplier tables). For a key such as `constructor` the model returns the fallback, where JavaScript returns the inherited member.
- `Object.entries` order is modelled as the order of an object's members, in `analyzeJsonStructure`. Maps in the Pareto and store models are unordered.
- Db.ParseInt: leading whitespace, which `parseInt` skips, is not modelled. The query values it reads are taken as given.
- Db.PageSize: the page-length bound is stated for a limit that is not negative. With a negative `_limit`, `slice(start, start + limit)` counts its end back from the end of the list and can return more records.
- Db.Store.Replace: the stored record is a copy with the id forced. The source writes into the caller's object, and that aliasing is not modelled.
- Db.Store.Create: the stored record is a copy with the generated id. The source sets the id on the caller's object and stores that object, and that aliasing is not modelled.
- ChartBuilder.ExtractLayerData: y is an integer. A fractional JSON number, and `Number()` of decimal, exponent, hexadecimal, binary, octal or `Infinity` text, are not modelled. Such text reads as 0 where JavaScript gives a number.
- ChartBuilder.Prop: the `length` of an array or a string and indexing into a string (`"abc"[0]`) are not modelled. Both read as undefined.
- ChartBuilder.ApplyPatch: a layer patch never carries an id. `updateLayer` spreads any patch over the layer, but no caller passes an id, so the distinct-id invariant holds only for such patches.
- BenchmarkFilters.FilteredStats: the average performance is not modelled, because it is floating-point division.
- ParetoData.ParseParetoData: when the document has no view modes, it keeps the module's view modes at call time, passed as `current`.
- ParetoData.NormalizeToGlobalMax: only the points' utilisation is recomputed, over exact reals. Point fields outside the model are not carried.
- The option and colour tables of the stores are immutable constants. Mutation of those shared arrays by other code is not modelled.
- The sparkline table (`gpuInferenceBenchmarks`, `gpuBenchmarkColumns`) in the placeholders file is static display data and is not modelled.
- The routes, hooks, remote functions and build configuration are not part of this model.
