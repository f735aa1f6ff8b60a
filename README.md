# Ad dashboard row engine, modelled in Dafny

YANGYU 秧語廣告儀表板 is a browser dashboard for advertising reports. It reads ad data from two sources:
- a CSV export of Meta or Google Ads, parsed into rows in the browser;
- a live sync from the Meta Marketing API.

It turns each record into one canonical `AdRow` and shows the rows in a filterable, sortable table. That table has a totals row, an age and gender breakdown, a manual result-type override and an Excel report export. A date-range picker chooses the period a sync covers.

This project models the deterministic core of that pipeline and proves what it promises:

- **CSV normaliser** (`CsvData`, over `services/dataService.ts`):
  - currency-string parsing;
  - header-based platform detection;
  - the two-loop image-URL search;
  - the first-match level classifier;
  - the per-platform column mapping;
  - the guarded derived rates and record construction, with the raw columns spread last.

  The row loop, the image loops and the level and record steps are methods. Each is proved against a predicate that states everything the resulting row holds.
- **Meta API normaliser**, over `services/metaApiService.ts`:
  - result attribution (`MetaResult`): the name heuristic, then the objective cascades, then the generic priority list;
  - status mapping, budget divider and budget selection, creative image lookup and the `calculateMetrics` record (`MetaMetrics`);
  - the post-fetch join (`MetaJoin`): five id-keyed maps filled by loops, then rows emitted campaign, ad set, ad, gender, age.
- **Dashboard operations** in `App.tsx`:
  - the manual override (`AppOverride`);
  - the age and gender aggregation, its total row and its order-independence (`AppAggregate`);
  - the table's filter, sort and `requestSort` toggle (`AppTable`);
  - the totals row (`AppTotals`);
  - the column layout (`AppColumns`);
  - the Excel sheet selection (`AppExport`);
  - the project and token store, a `Dashboard` class whose methods update its fields (`AppState`).
- **Date-range picker** (`DatePicker`, over `components/DateRangePicker.tsx`):
  - `formatStr` and `formatDisplay`;
  - the month shift;
  - the presets;
  - the click-and-apply selection, a `RangeSelection` class;
  - the Monday-first month grid.

  It runs over a small proleptic Gregorian calendar (`Calendar`) in place of JavaScript's `Date`. That calendar includes `new Date`'s roll-over of months and days and its reading of years 0-99 as 1900-1999.

Supporting modules model the JavaScript built-ins the code relies on:
- `AdTypes`: the shapes of `types.ts`;
- `JsText`: truthiness, `includes`, `split`, case mapping, `trim`, `String(n)`, `padStart` and string `<`;
- `JsNumber`: `parseFloat` and `parseInt`;
- `Seqs`: `filter`;
- `Sorting`: a stable sort with a comparator;
- `Maps`: a `Map` filled by `set`.

Where the code and its design description disagree, the model follows the code:
- `detectPlatform` compares whole lower-cased headers, not substrings (services/dataService.ts:17-28).
- The column aliases are exact, case-sensitive keys (services/dataService.ts:102-160). The currency is never read from a header: "(TWD)" is part of the alias text.
- Attribution has no result-indicator field and no optimisation-goal table (services/metaApiService.ts:85-181).
- The CSV path labels breakdown rows 'demographics' (services/dataService.ts:103). The aggregation reads only 'age' and 'gender' rows (App.tsx:458), so CSV breakdown rows are never aggregated.
- A zero conversion count does not force a zero cost per result:
  - a CSV row keeps its own cost column (services/dataService.ts:140);
  - an override keeps a reported per-action cost (App.tsx:417-422).
- App reads `.rows` and `.currency` from each parsed file (App.tsx:701-703), while `parseCSV` resolves to a plain row list (services/dataService.ts:58). `HandleUpload` takes App's view: a list of parsed files, each with rows and a currency.
- Token start-up refreshes only the first saved 'dev-auto-token' entry (App.tsx:234-236). Exactly one such entry exists afterwards only when at most one was saved. `InitStoredTokens` states both cases.

Strings are `seq<char>`. Numbers are `real`, and timestamps are integers in milliseconds. The collation order of `localeCompare` is a parameter `before`, which some lemmas require to be a strict total order.

Ids, timestamps, "today", the user's answer to a confirmation and the built-in access token are all parameters. So are the fetched API arrays and the parsed CSV rows.

## Model

| member | source | states |
|---|---|---|
| AdTypes.LevelNameInjective | types.ts:3 | the seven level names are distinct, non-empty and free of '-', so a level can be read back from a `platform-level-index` id |
| AdTypes.Lookup | types.ts:80 | `row[key]` on the raw columns: defined exactly when some column has that key, and then it is one of the row's values for it |
| AdTypes.Prop | types.ts:17-81 | a spread raw column shadows the typed property of the same name; without one the typed property is read |
| MetaResult.FirstIndexOfType | services/metaApiService.ts:88-91 | `actions.find` by type: no earlier action has the type, and the index found has it (or is the end) |
| MetaResult.NameStage | services/metaApiService.ts:95-98 | a video-like campaign name yields ThruPlay only when that action count is positive; anything it yields is a genuine result |
| MetaResult.MessagingBranch | services/metaApiService.ts:103-116 | the messaging/engagement branch yields only positive values of its own action types |
| MetaResult.TrafficBranch | services/metaApiService.ts:118-127 | the traffic branch yields only positive landing-page or link-click values |
| MetaResult.AwarenessBranch | services/metaApiService.ts:129-135 | the awareness branch yields only a positive ThruPlay value |
| MetaResult.SalesBranch | services/metaApiService.ts:137-141 | the sales branch yields only a positive purchase value |
| MetaResult.LeadsBranch | services/metaApiService.ts:143-147 | the leads branch yields only a positive lead value |
| MetaResult.ObjectiveStage | services/metaApiService.ts:101-148 | whatever an objective branch yields is a genuine result of its kind |
| MetaResult.GenericStage | services/metaApiService.ts:150-180 | the fallback cascade yields the neutral `{0, 成果}` or a genuine result |
| MetaResult.SelectResult | services/metaApiService.ts:93-180 | the three stages together: neutral, or a positive value read from an action type tied to the label; the kind is NoKind exactly for the neutral result |
| MetaResult.GetResultData | services/metaApiService.ts:85-181 | an empty action list gives the neutral result; otherwise neutral or genuine, over `findVal` on the list |
| MetaResult.ReportedValueIsPresent | services/metaApiService.ts:88-91 | a reported value is the parsed value of the first action of one of the label's types, which exists in the list |
| MetaResult.NothingPositiveIsNeutral | services/metaApiService.ts:85-181 | with no positive action value, every objective and name gives the neutral result |
| MetaResult.NameHeuristicWins | services/metaApiService.ts:93-98 | a video-like name with positive ThruPlay wins over every objective and every other action |
| MetaResult.NoMessagesInTraffic | services/metaApiService.ts:103-118 | no traffic objective contains MESSAGES, so the messaging branch never shadows the traffic branch |
| MetaResult.TrafficOrder | services/metaApiService.ts:118-127 | under a traffic objective, landing-page views come first, then link clicks |
| MetaResult.MessagingOrder | services/metaApiService.ts:103-116 | under a messaging or engagement objective: conversations started, then ThruPlay, then post engagement |
| MetaResult.ObjectiveFallsThrough | services/metaApiService.ts:101-153 | when no matching objective branch finds a positive value, the result is the one without an objective: the generic cascade |
| MetaResult.GenericStageIsFirstPositive | services/metaApiService.ts:150-180 | the generic cascade picks the first positive entry of purchase, lead, messaging, ThruPlay, landing page, link click, post engagement |
| MetaResult.PurchaseValueIsFirstNonZero | services/metaApiService.ts:152 | the `a \|\| b \|\| c` purchase value is one of the three counts, and non-zero exactly when one of them is |
| MetaMetrics.GetCreativeImageUrl | services/metaApiService.ts:183-207 | no creative gives no image; an image given is a non-empty string |
| MetaMetrics.CreativeImageIsFirstCandidate | services/metaApiService.ts:186-204 | the image is the first non-empty of image_url, thumbnail_url, the link picture and the video image |
| MetaMetrics.MapStatus | services/metaApiService.ts:210-237 | a running status with a stop time in the past reads 已完成; otherwise the status table's name, 未投遞 for any status not in it |
| MetaMetrics.CompletedIff | services/metaApiService.ts:211-219 | 已完成 exactly when the status is running, a stop time is present and it has passed |
| MetaMetrics.StatusIgnoresStopTime | services/metaApiService.ts:213-235 | a status that is not running ignores the stop time; an unknown one reads 未投遞 |
| MetaMetrics.GetBudgetDivider | services/metaApiService.ts:240-251 | 1 exactly when the upper-cased code is one of the zero-decimal currencies, 100 otherwise |
| MetaMetrics.BudgetDividerIgnoresCase | services/metaApiService.ts:247 | the divider of a code and of its upper case agree |
| MetaMetrics.LowerCaseCodesAreZeroDecimal | services/metaApiService.ts:241-248 | every listed code, and its lower case, divides by 1 |
| MetaMetrics.DecimalReadWhereAutoReads | services/metaApiService.ts:307-311 | where `parseInt(raw)` reads a number `parseInt(raw, 10)` reads one too, and without a hex prefix they agree |
| MetaMetrics.BudgetAmount | services/metaApiService.ts:308-311 | the budget times the divider is the decimal reading of the raw value |
| MetaMetrics.SelectBudget | services/metaApiService.ts:302-317 | Daily exactly when the daily budget is positive, else Lifetime exactly when the lifetime budget is, else ABO exactly at campaign level, else empty; the amount is the raw budget over the divider, 0 without a budget |
| MetaMetrics.DecimalBudgetIsPositive | services/metaApiService.ts:307-312 | a positive raw budget without a hex prefix gives a positive amount |
| MetaMetrics.HexBudgetReadsAsZero | services/metaApiService.ts:307-309 | a daily budget "0x10" passes the auto-radix test yet is read as 0 in base 10: a Daily budget of 0 |
| MetaMetrics.FirstIndexOfEither | services/metaApiService.ts:324-327 | the first action of either messaging-connection type: none before it, and it has one of them |
| MetaMetrics.ImageFor | services/metaApiService.ts:297 | an image exactly when a map is passed, the ad id is truthy and in the map, and then it is the mapped URL |
| MetaMetrics.MetricsRow | services/metaApiService.ts:264-360 | the record: Meta platform, the level, guarded ratios, the counts, and the result's value and label |
| MetaMetrics.ApplyExtras | services/metaApiService.ts:361 | `...extraProps` overrides only the name and the gender or age |
| MetaMetrics.CalculateMetrics | services/metaApiService.ts:254-363 | id `meta-level-id`, the mapped status, the selected budget, the image, the name chain, the result and guarded ratios |
| MetaMetrics.ExtrasKeepRatios | services/metaApiService.ts:284-361 | the spread extras leave every ratio guarded |
| MetaMetrics.ConversionsAreReported | services/metaApiService.ts:278-348 | conversions are 0 or the positive value of an action type tied to the row's result label |
| MetaMetrics.KindOf | services/metaApiService.ts:97-177 | the labels of distinct result kinds differ, so a label names its kind |
| MetaMetrics.RatioIfPositiveMeaning | services/metaApiService.ts:284-295 | `x > 0 ? a / x : 0` is 0 exactly when x is not positive or a is 0, and otherwise multiplies back to a |
| MetaJoin.CampaignPairs | services/metaApiService.ts:455-463 | one `(id, info)` entry per campaign record, in order |
| MetaJoin.AdSetPairs | services/metaApiService.ts:467-475 | one `(id, info)` entry per ad-set record, in order |
| MetaJoin.StatusPairs | services/metaApiService.ts:481 | one `(id, status)` entry per ad record |
| MetaJoin.ParentPairs | services/metaApiService.ts:482 | one `(id, ad set)` entry per ad record |
| MetaJoin.ImagePairs | services/metaApiService.ts:484-487 | entries only for ads whose creative gives an image, never an empty URL |
| MetaJoin.BuildCampaignMap | services/metaApiService.ts:454-464 | the loop leaves the map of the campaign entries, later ids overwriting earlier |
| MetaJoin.BuildAdSetMap | services/metaApiService.ts:466-476 | the loop leaves the map of the ad-set entries |
| MetaJoin.BuildAdMaps | services/metaApiService.ts:477-489 | the loop leaves the status, image and parent maps of the ad entries |
| MetaJoin.BuildStructureMaps | services/metaApiService.ts:454-489 | the five maps are those of the three record lists |
| MetaJoin.ImageMapHoldsCreativeImages | services/metaApiService.ts:480-488 | every image in the ad map is non-empty and is what some ad with that id has in its creative |
| MetaJoin.Get | services/metaApiService.ts:494 | `map.get`: defined exactly for keys in the map, with the mapped value |
| MetaJoin.RowObjective | services/metaApiService.ts:496 | the record's truthy objective, else the campaign's |
| MetaJoin.CampaignCall | services/metaApiService.ts:493-498 | a campaign row is built at campaign level from its record, with no image map or extras |
| MetaJoin.AdSetCall | services/metaApiService.ts:501-507 | an ad-set row always passes a structure object, even for an unknown ad set |
| MetaJoin.AdSetIdOf | services/metaApiService.ts:513 | the record's truthy ad set id, else the parent recorded for the ad |
| MetaJoin.AdCall | services/metaApiService.ts:510-520 | an ad row is built at ad level with the image map |
| MetaJoin.GenderName | services/metaApiService.ts:528 | 未知 exactly for 'unknown', 女性 exactly for 'female', 男性 for everything else |
| MetaJoin.GenderCall | services/metaApiService.ts:523-531 | a gender row has no structure info and no image map |
| MetaJoin.AgeCall | services/metaApiService.ts:533-541 | an age row has no structure info and no image map |
| MetaJoin.CampaignCalls | services/metaApiService.ts:493 | one campaign call per insights record, in order |
| MetaJoin.AdSetCalls | services/metaApiService.ts:501 | one ad-set call per insights record, in order |
| MetaJoin.AdCalls | services/metaApiService.ts:510 | one ad call per insights record, in order |
| MetaJoin.GenderCalls | services/metaApiService.ts:523 | one gender call per insights record, in order |
| MetaJoin.AgeCalls | services/metaApiService.ts:533 | one age call per insights record, in order |
| MetaJoin.JoinFetched | services/metaApiService.ts:450-543 | one row per call of the join, each the row `calculateMetrics` makes for it |
| MetaJoin.JoinLayout | services/metaApiService.ts:543 | campaign rows first, then ad sets, ads, genders and ages, each block in input order |
| MetaJoin.JoinLevelsOrdered | services/metaApiService.ts:543 | the levels of the joined rows never go back |
| MetaJoin.MissingStructureStatus | services/metaApiService.ts:495-535 | unknown structures give 'UNKNOWN', and demographic rows of an unknown campaign 'Active' |
| MetaJoin.DefaultStatusesNotDelivering | services/metaApiService.ts:222-236 | both defaults show as 未投遞; the table is case-sensitive, so 'Active' is not 'ACTIVE' |
| MetaJoin.KnownStructureStatus | services/metaApiService.ts:495-525 | a known structure with a truthy status passes that status on |
| MetaJoin.NonEmpty | services/metaApiService.ts:300 | an optional string with an empty value read as absent |
| MetaJoin.StopTimes | services/metaApiService.ts:495-537 | the stop time each status test sees: the campaign's, the ad set's end time for ad sets and their ads, none for demographics |
| MetaJoin.BudgetsOnlyFromCampaignsAndAdSets | services/metaApiService.ts:495-537 | ad and demographic rows have no budget and an empty budget type |
| MetaJoin.RowOfCall | services/metaApiService.ts:254-363 | each call's row has the call's level, the mapped status, the mapped image and the gender extras |
| AppAggregate.Ratio | App.tsx:479-484 | `d ? n / d : 0`: 0 when the divisor is zero, otherwise a quotient that multiplies back to the dividend |
| AppAggregate.CalcRates | App.tsx:478-517 | each rate times its divisor gives its numerator (CTR and CVR in percent, CPA over `conversions \|\| websitePurchases`), and each rate with a zero divisor is 0 |
| AppAggregate.FindGroup | App.tsx:462 | `groups[key]`: the index of the group with that name, or -1 exactly when no group has it |
| AppAggregate.GroupNamesDistinct | App.tsx:459-475 | the dictionary holds no two groups with the same name |
| AppAggregate.GroupNamesCover | App.tsx:461-467 | a group exists for a name exactly when some row carries that name |
| AppAggregate.NewGroupExact | App.tsx:462-474 | a row with a new name opens a group holding just that row's sums |
| AppAggregate.SameGroupExact | App.tsx:468-474 | a row with a known name adds itself to its own group |
| AppAggregate.OtherGroupExact | App.tsx:468-474 | a row leaves the groups of every other name as they were |
| AppAggregate.GroupSumsExact | App.tsx:460-475 | each group holds exactly the sums of the rows that carry its name |
| AppAggregate.GroupsConserve | App.tsx:468-474 | for each summed field the groups together hold what the rows hold |
| AppAggregate.AccumulateRow | App.tsx:460-475 | one `forEach` step keeps the dictionary and its key order in step with the list of groups |
| AppAggregate.GroupRows | App.tsx:460-475 | the loop leaves the dictionary of the groups of the level's rows, keys in the order names first appear |
| AppAggregate.GetAggregatedData | App.tsx:456-491 | the method that fills the group dictionary returns exactly `Aggregated`: one rated group per distinct name among the rows of that level, sorted by name |
| AppAggregate.RatedAllConserves | App.tsx:487 | `map(calcRates)` keeps every group's sums |
| AppAggregate.RatedAllNames | App.tsx:487 | `map(calcRates)` keeps group names distinct |
| AppAggregate.AggregatedConserves | App.tsx:456-491 | for each summed field the aggregated rows hold exactly what the level's rows hold |
| AppAggregate.AggregatedStrictlyByName | App.tsx:488 | under a strict collation the names strictly increase down the result, so none repeats |
| AppAggregate.AggregatedOrderIndependent | App.tsx:487-488 | whatever order `Object.values` yields the groups in, the sorted result is the same |
| AppAggregate.AggregatedRowExact | App.tsx:456-491 | each aggregated row holds the sums of exactly the level's rows with its name, rates recomputed from them, and some such row exists |
| AppAggregate.RatedRowExact | App.tsx:460-487 | each rated group holds the sums of exactly the rows with its name, its rates are computed from those sums, and some row carries that name |
| AppAggregate.AggregatedCoversNames | App.tsx:458-475 | every name carried by a row of the level has its aggregated row |
| AppAggregate.TotalCountsSum | App.tsx:501-508 | the `reduce` of each count is the sum of that count over the groups |
| AppAggregate.DemoTotalOfRows | App.tsx:498-524 | the total row's counts are the level's row counts summed, its rates recomputed from them |
| AppAggregate.DemographicData | App.tsx:494-527 | a breakdown exactly when a project is active and the age or gender tab is open; then the aggregated rows and their total |
| AppColumns.ColumnIndexIn | App.tsx:642-643 | `findIndex` by id: -1 exactly when no column has the id, otherwise its first position |
| AppColumns.ColumnOrderSplits | App.tsx:641-650 | the comparator puts known columns before unknown ones and orders the known ones as a preorder |
| AppColumns.LayoutAgainst | App.tsx:640-651 | sorted against any catalogue, the chosen columns are kept, known before unknown, known ones in catalogue order |
| AppColumns.SortedVisibleColumnsLayout | App.tsx:640-651 | the table's columns: the chosen ones, catalogue columns first and in catalogue order |
| AppExport.FindExportType | App.tsx:156-163 | `EXPORT_TYPES.find` by id: none exactly when no type has the id, otherwise one with that id |
| AppExport.FindPreset | App.tsx:71-144 | `DEFAULT_PRESETS.find` by id: none exactly when no preset has the id, otherwise one with that id |
| AppExport.ColumnIds | App.tsx:900 | the ids of a column list, position by position |
| AppExport.ExecuteExport | App.tsx:871-923 | no workbook without an active project or a selected type; otherwise one named after the project, one sheet per known selected type in selection order |
| AppExport.ExportTypeFound | App.tsx:156-163 | the dialog's ids are distinct, so each selects its own type |
| AppExport.ReportSheetRows | App.tsx:886-893 | the rows of a report sheet are the rows of its tab |
| AppExport.ReportSheetMatchesTable | App.tsx:886-893 | a report sheet holds its tab's rows in project order, the same rows the table shows on that tab without filter or search, whatever the sort |
| AppExport.DemographicSheetMatchesTable | App.tsx:883-904 | an age or gender sheet holds the breakdown table's groups, under a name column captioned by the dimension |
| AppExport.ReportSheetColumns | App.tsx:905-909 | a report sheet lists its preset's columns over the whole catalogue |
| AppOverride.FindAction | App.tsx:404-420 | `list.find` by action type: none exactly when no entry has the type, otherwise the first that has it |
| AppOverride.ActionValue | App.tsx:401-422 | 0 without a list or a matching entry, otherwise the parsed value of the first matching entry |
| AppOverride.ColumnFallback | App.tsx:407-412 | only link clicks, purchases, landing-page views and ThruPlay have a column to fall back on; any other type reads 0 |
| AppOverride.LookupKept | App.tsx:433-439 | dropping the four written keys from the raw columns hides exactly those keys and keeps every other |
| AppOverride.OverrideRow | App.tsx:433-439 | `{...row, …}` changes only the conversions, label, cost and goal, and no raw column shadows them |
| AppOverride.OverrideRowProps | App.tsx:398-439 | read back, the overridden row gives the new value, the new cost, the caption before " (" and `MANUAL_` plus the upper-cased type |
| AppOverride.OverrideIdempotent | App.tsx:398-439 | overriding a row twice with the same type gives the row of overriding once |
| AppOverride.OverrideCostTimesValue | App.tsx:424-426 | with no reported cost, the derived cost times the positive new value is the spend |
| AppOverride.OverrideCostWithoutValue | App.tsx:416-426 | with no reported cost and no positive value the cost is 0 |
| AppOverride.UnofferedLabel | App.tsx:429-430 | a type that is not offered is its own label |
| AppOverride.ApplyOverride | App.tsx:390-452 | nothing changes without a selected row, active project or type; otherwise only the active project changes, taking the new time, and in it only the rows with the selected id are overridden |
| AppOverride.ApplyOverrideIdempotent | App.tsx:390-452 | applying the same override again changes nothing more |
| AppState.TokenIndex | App.tsx:234 | `findIndex` by id: -1 exactly when no token has the id, otherwise the first position holding it |
| AppState.InitStoredTokens | App.tsx:229-246 | after start-up the first built-in entry holds the current built-in token, every other token is kept in order, and a built-in entry is put in front only when none was saved |
| AppState.DevTokenRefreshed | App.tsx:234-236 | refreshing the saved built-in entry keeps its position, every other token, and the count of built-in entries |
| AppState.TokenIndexKept | App.tsx:234-236 | replacing the first entry with an id by another with that id keeps its position |
| AppState.DevTokenPrepended | App.tsx:237-244 | the prepended built-in entry is the only one, and the other tokens are unchanged |
| AppState.UpdateById | App.tsx:677-680 | `projects.map(p => p.id === id ? f(p) : p)`: projects with the id are updated, every other one is kept |
| AppState.WithoutProjectRemovesAll | App.tsx:690 | deleting keeps exactly the projects with another id |
| AppState.AllRows | App.tsx:702 | the flattened rows are empty exactly when every file's rows are |
| AppState.UploadOnlyTouchesActive | App.tsx:711-720 | an upload changes only projects with the active id, by new rows at the end, the currency and the time |
| AppState.FindProject | App.tsx:359-362 | `activeProject`: none when there is no id or no project has it, otherwise a project of the list with that id |
| AppState.Dashboard.constructor | App.tsx:222-276 | start-up state: the saved projects, nothing active, renamed or pending; the built-in token injected and selected |
| AppState.Dashboard.CreateProject | App.tsx:663-675 | a new empty untitled project in front, made active and put under renaming; nothing else changes |
| AppState.Dashboard.UpdateProjectName | App.tsx:677-680 | every project with the id renamed and stamped; renaming ends; nothing else changes |
| AppState.Dashboard.InitiateDeleteProject | App.tsx:683-685 | only the pending deletion is set |
| AppState.Dashboard.ConfirmDeleteProject | App.tsx:688-695 | with a truthy pending id, every project with it goes, the active id is cleared when it was that one, and the request ends; otherwise nothing changes |
| AppState.Dashboard.HandleUpload | App.tsx:697-728 | nothing without a truthy active id or with no rows; otherwise the rows go to the end of the active project with the first file's currency, or 'USD' when there is no file |
| AppState.Dashboard.SyncMeta | App.tsx:828-864 | nothing unless the active project has an ad account; under five minutes since the last update only when forced or confirmed; then the fetched rows replace that project's data |
| AppState.Dashboard.SaveToken | App.tsx:731-743 | with a name and a value typed, the new token goes to the end and the inputs clear; otherwise nothing changes |
| AppState.Dashboard.DeleteToken | App.tsx:745-748 | every token with the id goes, and the selection clears when it was that token |
| AppState.DeleteTokenRemovesAll | App.tsx:746 | after deletion no token has the id, and every other token stays |
| AppTable.FiltersCompose | App.tsx:538-569 | the tab, status and search filters applied in turn are one filter by all three tests |
| AppTable.FilteredData | App.tsx:530-596 | no rows without an active project or on the age and gender tabs; otherwise the project's rows filtered by tab, status and search, then sorted |
| AppTable.VisibleRows | App.tsx:530-596 | the table shows some of the project's rows, reordered: exactly those that pass the tab, status and search tests |
| AppTable.BlankSearchKeepsAll | App.tsx:561 | a query that trims to nothing filters nothing |
| AppTable.TabOnlyVisible | App.tsx:538-548 | with every status and no search, the table shows the tab's rows, reordered |
| AppTable.CompareSplitsUndefined | App.tsx:577-579 | an undefined value goes after every defined one in either direction |
| AppTable.UndefinedLast | App.tsx:572-584 | sorted by any column, every row with an undefined value comes after every row with a defined one |
| AppTable.NumbersPreordered | App.tsx:573-584 | on numbers (and undefined) the comparator is a consistent preorder |
| AppTable.SortedNumbers | App.tsx:572-584 | sorting by a numeric column puts its defined values in order |
| AppTable.NumericColumnOrdered | App.tsx:572-584 | sorted by a numeric column, the defined values ascend, or descend, down the table |
| AppTable.NumberCompareMeaning | App.tsx:581-582 | on two numbers the comparator is `<=` ascending and `>=` descending |
| AppTable.StringCompareMeaning | App.tsx:581-582 | on two strings the comparator is JavaScript's string order (UTF-16 code units, `JsText.StrLessIsCodeUnitOrder`), or its reverse |
| AppTable.StringCompareTransitive | App.tsx:577-583 | on strings the comparator is transitive |
| AppTable.StringsPreordered | App.tsx:573-584 | on strings (and undefined) the comparator is a consistent preorder |
| AppTable.SortedStrings | App.tsx:572-584 | sorting by a text column puts its defined values in UTF-16 code-unit order |
| AppTable.TextColumnOrdered | App.tsx:572-584 | sorted by a text column, the defined values follow UTF-16 code-unit order, or its reverse |
| AppTable.DefaultOrderByCampaign | App.tsx:585-592 | with no column chosen, rows follow `campaignName \|\| name` under the collation order |
| AppTable.NextSort | App.tsx:654-660 | `requestSort`: the clicked key, ascending exactly when that key was sorted descending |
| AppTable.NextSortTwice | App.tsx:654-660 | clicking the sorted column twice returns to where it was |
| AppTable.NextSortNewKey | App.tsx:654-660 | a first click on a column sorts it descending |
| AppTotals.TableTotals | App.tsx:598-636 | no totals exactly for an empty table; otherwise id 'totals', the sums of the rows, and the five excluded columns marked -1 |
| AppTotals.TableSumsExact | App.tsx:601-617 | each summed column of the totals is the sum of that column over the rows |
| AppTotals.DefinedSumExact | App.tsx:608-609 | a sum over values that may be undefined is a number exactly when every value is, and then the plain sum |
| AppTotals.TableSumsOptional | App.tsx:608-609 | the video and landing-page sums of the `reduce` are those defined-or-NaN sums |
| AppTotals.VideoViewsTotal | App.tsx:608 | the video-view total is a number exactly when every row has video views, and then their sum |
| AppTotals.LandingPageViewsTotal | App.tsx:609 | the landing-page total is a number exactly when every row has landing-page views, and then their sum |
| AppTotals.DefinedSumPermutation | App.tsx:601-617 | a defined-or-NaN sum does not depend on the order of the rows |
| AppTotals.ColumnPermutation | App.tsx:601-617 | a summed column does not depend on the order of the rows |
| AppTotals.CountedSumsPermutation | App.tsx:602-607 | the six counts do not depend on the order of the rows |
| AppTotals.TableSumsPermutation | App.tsx:601-617 | the sums do not depend on the order of the rows |
| AppTotals.TableTotalsPermutation | App.tsx:598-636 | the totals row does not depend on the order of the rows |
| AppTotals.TotalsRates | App.tsx:619-628 | each rate of the totals times its divisor gives its numerator, and each rate with a zero divisor is 0 |
| AppTotals.TotalsIgnoreSort | App.tsx:571-636 | the totals of the table are those of the filtered rows in project order, whatever the sort |
| Calendar.DaysInMonth | components/DateRangePicker.tsx:137-138 | a month has 28 to 31 days, 29 exactly for February of a leap year and 28 exactly for February otherwise |
| Calendar.DaysBeforeYearStep | components/DateRangePicker.tsx:33-35 | the day count steps by the length of each year |
| Calendar.DaysBeforeMonthStep | components/DateRangePicker.tsx:33-35 | the day count steps by the length of each month, and twelve months make the year |
| Calendar.Weekday | components/DateRangePicker.tsx:139 | `getDay()` is one of the seven weekdays |
| Calendar.NextDay | components/DateRangePicker.tsx:40-43 | the day after a valid date is valid |
| Calendar.PrevDay | components/DateRangePicker.tsx:40-43 | the day before a valid date is valid |
| Calendar.AddDays | components/DateRangePicker.tsx:40-43 | `setDate(getDate() + k)` gives a valid date |
| Calendar.MonthStart | components/DateRangePicker.tsx:92 | the first of the month `monthIndex` months after January of the year, counted across year ends in either direction |
| Calendar.MonthStartNear | components/DateRangePicker.tsx:92 | a month index one step outside the year lands at most one year away |
| Calendar.MakeDate | components/DateRangePicker.tsx:33-35 | `new Date(year, monthIndex, day)` with the month and the day rolling over gives a valid date |
| Calendar.NextDayNumber | components/DateRangePicker.tsx:40-43 | the next day has the next day number |
| Calendar.PrevDayNumber | components/DateRangePicker.tsx:40-43 | the previous day has the previous day number |
| Calendar.AddDaysNumber | components/DateRangePicker.tsx:40-43 | adding k days adds k to the day number, in either direction |
| Calendar.AddDaysForward | components/DateRangePicker.tsx:40-43 | adding k days forward adds k to the day number |
| Calendar.AddDaysBackward | components/DateRangePicker.tsx:40-43 | going back k days subtracts k from the day number |
| Calendar.AddDaysInMonth | components/DateRangePicker.tsx:144-146 | stepping inside a month only moves the day |
| Calendar.MakeDateInMonth | components/DateRangePicker.tsx:145 | `new Date(year, month, i)` for a day of that month is that day |
| Calendar.MonthStartNext | components/DateRangePicker.tsx:96-100 | the month after a month start is the next month, across a year end |
| Calendar.MakeDateMonthEnd | components/DateRangePicker.tsx:96-137 | day 0 of the next month is the last day of the month |
| Calendar.DaysBeforeYearIncreasing | components/DateRangePicker.tsx:33-35 | later years start later |
| Calendar.DayNumberOrder | components/DateRangePicker.tsx:33-35 | day numbers follow calendar order and tell valid dates apart |
| Calendar.MonthsIncreasing | components/DateRangePicker.tsx:33-35 | later months of a year start after earlier ones end |
| DatePicker.DigitsHaveNoDash | components/DateRangePicker.tsx:17-22 | the parts of a formatted date are non-empty digit strings without dashes |
| DatePicker.TwoDigitsParse | components/DateRangePicker.tsx:83-87 | the padded two-digit form reads back as the number, with or without a radix |
| DatePicker.SplitThree | components/DateRangePicker.tsx:25-29 | three dash-free pieces joined by dashes split back into those pieces |
| DatePicker.FormatStrParts | components/DateRangePicker.tsx:17-27 | a formatted date with a year of at least 0 splits into its year, month and day parts |
| DatePicker.DisplayOfFormatted | components/DateRangePicker.tsx:25-29 | displaying a formatted date gives `Y年M月D日`, the leading zeros of the month and the day dropped |
| DatePicker.NatToStringInjective | components/DateRangePicker.tsx:18 | distinct years are written differently |
| DatePicker.TwoDigitsInjective | components/DateRangePicker.tsx:19-20 | distinct months or days are written differently |
| DatePicker.DigitsOrder | components/DateRangePicker.tsx:110-166 | decimal strings of one length compare as their numbers |
| DatePicker.TwoDigitsOrder | components/DateRangePicker.tsx:17-22 | padded two-digit forms of numbers below 100 compare as the numbers |
| DatePicker.ThreePartOrder | components/DateRangePicker.tsx:17-22 | dash-joined triples with parts of matching lengths compare part by part |
| DatePicker.FormatStrOrder | components/DateRangePicker.tsx:110-166 | for four-digit years, comparing formatted dates as strings compares the dates, and equal strings are equal dates |
| DatePicker.MonthStartOfMonth | components/DateRangePicker.tsx:92 | `new Date(y, m - 1, 1)` for a month number 1-12 is the first of that month |
| DatePicker.ShiftDates | components/DateRangePicker.tsx:92-100 | the shift's dates are the first of the neighbouring month and, outside years 0-99, the last day of that month |
| DatePicker.ShiftFromSpansMonth | components/DateRangePicker.tsx:83-106 | the shift lands on the neighbouring month and, outside years 0-99, spans it from its first to its last day |
| DatePicker.ShiftFromIs | components/DateRangePicker.tsx:92-105 | the range the shift emits for a target month outside years 0-99 |
| DatePicker.StartOfFormatted | components/DateRangePicker.tsx:85-87 | a formatted start reads back as its year and month |
| DatePicker.ShiftOfFormatted | components/DateRangePicker.tsx:83-106 | from a formatted start with a four-digit year, the shift gives the first and last day of the neighbouring month |
| DatePicker.ShiftOfFormattedIs | components/DateRangePicker.tsx:83-106 | the same range, for a named target month |
| DatePicker.ShiftMonthOfFormatted | components/DateRangePicker.tsx:85-92 | the shift of a formatted start is the shift from its year and month |
| DatePicker.ShiftMonthOfParsed | components/DateRangePicker.tsx:85-92 | a start that parses shifts from the year and month it parses to |
| DatePicker.ShiftFromTwoDigitYear | components/DateRangePicker.tsx:96-100 | going back from January of year 100 gives 99-12-01 to 1999-12-31 |
| DatePicker.TwoDigitYearDates | components/DateRangePicker.tsx:33-100 | `new Date` reads year 99 as 1999 |
| DatePicker.TwoDigitYearFormats | components/DateRangePicker.tsx:17-22 | the two dates of that shift as `formatStr` writes them |
| DatePicker.ShiftMonthTwoDigitYear | components/DateRangePicker.tsx:83-106 | the shift back from 15 January of year 100 ends in 1999 |
| DatePicker.PresetDates | components/DateRangePicker.tsx:38-46 | each preset's two dates are valid |
| DatePicker.PastDaysSpan | components/DateRangePicker.tsx:40-43 | 'past n days' covers n days ending today; yesterday is the day before today |
| DatePicker.ThisMonthRange | components/DateRangePicker.tsx:44 | this month runs from its first to its last day |
| DatePicker.LastMonthRange | components/DateRangePicker.tsx:45 | last month runs from the first to the last day of the month before today's |
| DatePicker.Ordered | components/DateRangePicker.tsx:110-111 | the two ends, the later string last |
| DatePicker.MarkOf | components/DateRangePicker.tsx:161-169 | a day is selected exactly when it is a set end, in range exactly when strictly between two set ends, never both |
| DatePicker.RangeSelection.constructor | components/DateRangePicker.tsx:49-59 | the picker opens closed, with the current range pending |
| DatePicker.RangeSelection.ClickDate | components/DateRangePicker.tsx:117-129 | a click starts a new selection unless only a start is set, else completes it, earlier date first; the start never comes after the end |
| DatePicker.RangeSelection.ValueChanged | components/DateRangePicker.tsx:73-78 | when the range shown or the open state changes, both pending ends are reset to the range shown and the open state is kept |
| DatePicker.RangeSelection.SetOpen | components/DateRangePicker.tsx:61-78 | opening or closing the picker (trigger, cancel, preset, outside click) sets the open state and resets both pending ends to the range shown |
| DatePicker.RangeSelection.Apply | components/DateRangePicker.tsx:108-115 | with both ends set, emits them in order and closes; otherwise emits nothing and changes nothing |
| DatePicker.MondayFirst | components/DateRangePicker.tsx:140 | the Monday-first column of a weekday, one column before `getDay()` modulo 7 |
| DatePicker.MonthGrid | components/DateRangePicker.tsx:135-147 | a blank per weekday before the first of the month, counted from Monday, then every day of the month in order |
| DatePicker.GridAppend | components/DateRangePicker.tsx:143-147 | each push extends the grid by its next cell |
| DatePicker.MonthGridAscending | components/DateRangePicker.tsx:144-147 | the grid's days ascend as dates and, for four-digit years, as the strings the selection compares |
| CsvData.KeepNumeric | services/dataService.ts:11 | the cleaned text keeps only digits, points and minus signs, and leaves a text made only of those as it was |
| CsvData.ParseCurrency | services/dataService.ts:7-13 | a number passes through, an empty or missing value is 0, a text reads as the leading number of its cleaned form or 0 |
| CsvData.ParseCurrencyThrough | services/dataService.ts:7-13 | a non-empty text reads as the number its cleaned form parses to |
| CsvData.ParseCurrencyOfNonNumber | services/dataService.ts:10-12 | every text with no digit at all (such as "N/A" or "--") reads as 0: cleaning adds no digit and `parseFloat` of a digit-free text is NaN, which `|| 0` turns into 0 |
| CsvData.FirstCell | services/dataService.ts:104-126 | `row[k1] \|\| row[k2] \|\| …`: a non-empty cell of one of the aliases, none exactly when every alias is missing or empty |
| CsvData.FirstCellIsFirst | services/dataService.ts:104-126 | the first non-empty alias wins over every later one |
| CsvData.IncludesAny | services/dataService.ts:19-28 | some marker is among the headers |
| CsvData.Lowered | services/dataService.ts:17 | the headers lower-cased one by one |
| CsvData.DetectPlatform | services/dataService.ts:16-31 | Meta exactly when a lowered header is a Meta marker; Google exactly when none is but one is a Google marker; unknown otherwise |
| CsvData.CandidateImage | services/dataService.ts:39-43 | the first fixed column whose text starts with "http"; none exactly when no fixed column has one |
| CsvData.KeysOf | services/dataService.ts:44 | `Object.keys(row)`, in column order |
| CsvData.ScanImage | services/dataService.ts:45-53 | the first column mentioning an image, URL or link whose text starts with "http"; none exactly when there is no such column |
| CsvData.ImageUrlOf | services/dataService.ts:34-55 | an image found starts with "http"; a fixed column wins; none exactly when both searches fail |
| CsvData.FirstHttpCell | services/dataService.ts:39-43 | the first loop returns the fixed-column candidate |
| CsvData.ScanHintedCells | services/dataService.ts:44-53 | the second loop returns the first hinted column's image |
| CsvData.FindImageUrl | services/dataService.ts:34-55 | the method returns the image URL of the row |
| CsvData.OtherColumns | services/dataService.ts:151-170 | outside Meta, link clicks and reach repeat clicks and impressions, frequency is 1, CPM and cost per result are guarded ratios, and the Meta-only fields are 0 |
| CsvData.ClassifyRow | services/dataService.ts:101-121 | the first matching level test sets the level and the name: demographics, creative, ad, ad set, campaign, else campaign named 'Unknown' |
| CsvData.BuildRow | services/dataService.ts:172-218 | the record: the platform-level-index id, the columns copied, every rate guarded by its divisor, a zero cost per result replaced by the CPA, the raw columns spread last |
| CsvData.NormalizeRow | services/dataService.ts:70-219 | the callback's row is normalised from the raw row, with its id and a non-empty name |
| CsvData.NormalizedSnoc | services/dataService.ts:70 | one more normalised row keeps the earlier ones normalised |
| CsvData.NormalizeRows | services/dataService.ts:64-221 | one normalised row per raw row, in order; the computed ids `${platform}-${level}-${idx}` are pairwise distinct (a raw `id` column would shadow them, see Left out) |
| CsvData.PrefixCancel | services/dataService.ts:191 | a shared prefix cancels |
| CsvData.NatToStringInjective | services/dataService.ts:191 | equal decimal forms are equal numbers |
| CsvData.DashSplit | services/dataService.ts:191 | splitting at the first '-' is determined when the heads hold none |
| CsvData.IdParts | services/dataService.ts:191 | `${p}-${x}-${n}` with no '-' in x determines x and n |
| CsvData.RowIdInjective | services/dataService.ts:191 | a row id determines its level and index |
| CsvData.NameNeverEmpty | services/dataService.ts:101-121 | a row name is never empty, so the `Row idx` fallback is never taken |
| CsvData.OtherPlatformMirrors | services/dataService.ts:164-188 | outside Meta the row's link clicks, reach, frequency, CPM and cost per result are derived from its counts |
| CsvData.RawColumnsShadow | services/dataService.ts:217 | a raw column shadows the computed property of the same name |
| JsText.FirstTruthy | services/metaApiService.ts:276-300 | an `a \|\| b \|\| …` chain of strings: the first truthy operand, none exactly when every operand is falsy |
| JsText.ContainsIff | services/metaApiService.ts:95-103 | `includes` holds exactly when the text occurs at some position |
| JsText.PrefixBefore | App.tsx:430 | `split(' (')[0]`: a prefix of the text, either all of it or ending where the separator starts |
| JsText.PrefixBeforeFirst | App.tsx:430 | splitting `p + sep + rest` gives `p` back when the separator's first character is not in `p` |
| JsText.ToLower | App.tsx:553-567 | `toLowerCase`, character by character |
| JsText.ToUpper | App.tsx:438 | `toUpperCase`, character by character |
| JsText.ToLowerIdempotent | App.tsx:562-567 | lowering twice is lowering once |
| JsText.ToUpperIdempotent | services/metaApiService.ts:247 | upper-casing twice is upper-casing once |
| JsText.TrimStart | App.tsx:561 | a suffix of the text with only white space cut from the front |
| JsText.TrimEnd | App.tsx:561 | a prefix of the text with only white space cut from the end |
| JsText.Trim | App.tsx:561 | `trim()`: a slice of the text with white space at neither end |
| JsText.TrimEmptyIff | App.tsx:561 | a text trims to nothing exactly when it is all white space |
| JsText.NatToString | components/DateRangePicker.tsx:18-20 | `String(n)`: digits without a leading zero, one digit exactly below 10 |
| JsText.IntToString | components/DateRangePicker.tsx:18 | `String(i)`: a minus sign before a negative value |
| JsText.PadStart2 | components/DateRangePicker.tsx:19-20 | `padStart(2, '0')`: zeros in front up to two characters, the text at the end |
| JsText.IndexOf | components/DateRangePicker.tsx:27 | the first position of a character, or the length when there is none |
| JsText.Split | components/DateRangePicker.tsx:83-87 | `split` by one character: at least one piece, none holding the separator |
| JsText.SplitJoin | components/DateRangePicker.tsx:21-27 | joining separator-free pieces and splitting again gives the pieces back |
| JsText.StrLessIsCodeUnitOrder | App.tsx:581 | `a < b` on strings is exactly the lexicographic order of their UTF-16 code units, a proper prefix first |
| JsText.CharUnitsOrder | App.tsx:581 | two distinct characters, followed by anything, compare as their code units do exactly when their `CodeUnitKey` ranks do |
| JsText.StrLessIrreflexive | components/DateRangePicker.tsx:110-122 | no string comes before itself |
| JsText.StrLessTransitive | components/DateRangePicker.tsx:110-122 | string order is transitive |
| JsText.StrLessAsymmetric | components/DateRangePicker.tsx:110-122 | no two strings come before each other |
| JsText.StrLessTotal | components/DateRangePicker.tsx:110-111 | of two distinct strings one comes first |
| JsText.StrLessCommonPrefix | components/DateRangePicker.tsx:110 | a common prefix does not change the order |
| JsText.StrLessEqualLengthPrefix | components/DateRangePicker.tsx:110 | strings of one length are compared before what follows them |
| JsNumber.DigitValue | services/metaApiService.ts:308 | a digit's value is below 10 |
| JsNumber.DigitRun | services/metaApiService.ts:308 | the run of digits stops at the end or at a non-digit |
| JsNumber.SkipSpaces | services/metaApiService.ts:308 | leading white space is skipped up to a non-space or the end |
| JsNumber.SignAt | services/metaApiService.ts:308 | an optional sign is consumed, and read as negative exactly for '-' |
| JsNumber.MantissaAt | services/dataService.ts:12 | the digits with an optional fraction; no digit reads as 0 |
| JsNumber.HexRun | services/metaApiService.ts:307 | the run of hexadecimal digits stays within the text |
| JsNumber.DecimalValueOfNatToString | components/DateRangePicker.tsx:86 | the digits of `String(n)` have the value n |
| JsNumber.ParseIntOfDigits | components/DateRangePicker.tsx:86-87 | both `parseInt` forms read a non-empty digit string as its value |
| JsNumber.ParseIntOfNatToString | components/DateRangePicker.tsx:86-87 | `parseInt(String(n))` gives n back |
| JsNumber.ParseFloatOfNatToString | services/dataService.ts:12 | `parseFloat(String(n))` gives n back |
| JsNumber.ParseFloatOfDigits | services/dataService.ts:12 | `parseFloat` of a digit string is its value |
| JsNumber.DecimalValueLeadingZero | components/DateRangePicker.tsx:19-28 | a leading zero does not change the value |
| Seqs.Filter | App.tsx:458 | `filter`: an ordered selection of the elements that pass the test |
| Seqs.FilterMember | App.tsx:688-695 | a value survives exactly when it is in the list and passes the test |
| Seqs.FilterAppend | App.tsx:458 | filtering distributes over concatenation |
| Seqs.FilterFilter | App.tsx:538-569 | two filters in a row are one filter by both tests |
| Seqs.MapSomeFilter | App.tsx:875-915 | `map(...).filter(s => s !== null)` keeps the images of exactly the inputs that map to a value, in order |
| Sorting.SortBy | App.tsx:572-592 | `sort` keeps exactly the elements it was given |
| Sorting.SortBySorted | App.tsx:572-592 | under a consistent comparator the result is ordered |
| Sorting.SortBySortedOn | App.tsx:640-651 | a comparator that splits its domain puts one part first and orders it |
| Sorting.StrictlySortedUnique | App.tsx:489 | values with distinct keys have one strictly ordered arrangement |
| Sorting.SumPermutation | App.tsx:601-617 | a sum does not depend on the order of what is summed |
| Maps.MapFromPairsKeys | services/metaApiService.ts:454-488 | a key is in the map exactly when some `set` wrote it |
| Maps.MapFromPairsLastWins | services/metaApiService.ts:454-488 | the value under a key is the last one written |

## Left out

- Network calls, retries, paging and backoff (`fetchWithRetry`, `fetchAllPages`, `fetchAdAccounts`, services/metaApiService.ts:15-81,438-447): the join starts from the fetched arrays.
- `handleFetchAccounts` and `handleConnectMeta` (App.tsx:751-826): thin wrappers over those network calls and toasts.
- `Papa.parse` and `exportToExcel` (services/dataService.ts:58-63,229-281): library wrappers. `ExecuteExport` stops at the `{filename, sheets}` value handed to the writer.
- services/geminiService.ts and components/LinearUI.tsx are not part of this model: an external AI call and presentational components.
- Rendering, toasts, localStorage persistence, sidebar resizing, column widths, `getStickyStyle` and `formatVal`: presentation only.
- `crypto.randomUUID`, `Date.now`, `window.confirm` and the `Math.random` id fallback (services/metaApiService.ts:338): ids, times and the confirmation answer are parameters, and the item id is taken as given.
- The built-in access token (App.tsx:20) is the opaque parameter `devToken`; its value is not part of the model.
- The picker's viewed month: its initial value, its reset in the effect, and `changeMonth` (components/DateRangePicker.tsx:53-56,77,131-133). No emitted range depends on it. The pending-end resets of the effects are `ValueChanged` and `SetOpen`; registering and removing the document listener is left out.
- Asynchronous failures and their error messages in `handleUpload` and `handleSyncMeta`: every operation is modelled once its input has arrived.
- `getLast30Days` (App.tsx:165-173): it reads the clock and converts through UTC.
- Floating point: counts, sums and rates are exact reals. Rounding, summation order, Infinity and -0 are not modelled.
- NaN: `parseFloat(x) || 0` reads a value with no number as 0, and so does the model. The model also reads 0 at every place where NaN can survive:
  - `findVal` (services/metaApiService.ts:90) and the conversion value (services/metaApiService.ts:283), which have no `|| 0`;
  - the action reads written `parseFloat(x?.value || 0)` (services/metaApiService.ts:275, 320, 324-327 and 334), where the `|| 0` applies only to a missing entry, so a present non-numeric value still gives NaN;
  - the override lookups (App.tsx:405,421).
  In those places the code would carry NaN.
- AppOverride.ActionValue: a non-numeric action value reads as 0, so the override falls back to the column. The code would keep NaN and skip the fallback.
- `null`: a JSON `null` in a row field is not modelled. Undefined and missing values are `Option` or `JsUndefined`.
- Mixed-type comparisons in the column sort: values of different kinds, such as a number against a string, are treated as unordered. JavaScript would coerce them. The sort lemmas are stated for all-numeric and all-text columns.
- `localeCompare`, with numeric collation for group names (App.tsx:489) and plain for text columns (App.tsx:590), is the abstract parameter `before`, not a concrete collation.
- A raw CSV column that shadows a numeric, level or platform field (services/dataService.ts:217): only `Prop` lookups see the spread columns. The typed record keeps the computed values of every field.
- CsvData.NormalizeRows: a raw column named `id`, `name`, `status`, `campaignName`, `adGroupName` or `imageUrl` replaces the computed value through `...row`. The typed `id` and `name` fields keep the computed values. So the distinct-ids property, and every member that reads `r.id`, `r.name` or `r.status`, holds only for uploads without such columns: `AppTable.SortName`, the search and status filters of `AppTable.FilteredData`, and the id match of `AppOverride.ApplyOverride`. The read-back through `AdTypes.Prop` does see the raw column (`CsvData.RawColumnsShadow`).
- `parseInt` of digit strings of 21 or more digits: the code would switch to exponent notation through `String`, and the model reads them exactly.
- Time zones and time of day: dates are calendar days, stop times are compared as integer timestamps, and a noon date is its day.
- JsText.ToLower and JsText.ToUpper: case mapping covers ASCII plus the few non-ASCII characters that map into ASCII letters (Kelvin sign, dotless i, long s). That is exact for every comparison the code makes against its fixed ASCII and CJK markers, but not full Unicode case mapping.
- DatePicker.ShiftFromSpansMonth: for a target month in years 0-99 the end date is rebuilt with a two-digit year, which `new Date` reads as 19xx. The range is then not that month, as `ShiftMonthTwoDigitYear` shows. The spanning property is stated for every other year.
- DatePicker.ShiftOfFormatted and DatePicker.FormatStrOrder: string comparison of formatted dates matches date order only for four-digit years, so these are stated for years 1000-9999.
- MetaResult.AwarenessBranch: the awareness branch also reads `reach` from the actions (services/metaApiService.ts:133) but never uses it; the model leaves that read out.
- AppOverride.ColumnFallback: on a row without landing-page views or ThruPlay views, an override to `omni_landing_page_view` or `video_thruplay_watched_actions` falls back to `row.landingPageViews` or `row.videoViews`, which are `undefined` there (App.tsx:411-412). CSV rows never have these columns. The code then stores `conversions: undefined`, and the cost is 0 because `undefined > 0` is false (App.tsx:424). The model, and with it `AppOverride.OverrideValue` and `AppOverride.OverrideRowProps`, reads the missing column as 0. The stored cost is the same, but the conversions are 0 where the code has undefined.
- MetaMetrics.ApplyExtras: an age breakdown entry is taken to carry `age`. Without it, the code spreads `name: undefined` over the row (services/metaApiService.ts:537-539), and the sort in `getAggregatedData` would throw on that name (App.tsx:489). The model, and with it `MetaMetrics.CalculateMetrics`, gives such a row the name "" instead.
- The range of JavaScript's `Date`: years beyond about ±271821 make `formatStr` give "NaN-NaN-NaN", while `Calendar.MakeDate` is defined for every integer year.
- Group keys in `getAggregatedData` are plain object keys (App.tsx:463). A name such as "constructor" finds an inherited prototype member there rather than a missing group; the model's dictionary starts empty.
- `setSelectedDebugRow(updatedRow)` in the override (App.tsx:442) only updates the debug panel's display.
