# political-trends in Dafny

A model of the core of *political-trends*, a web application that charts French
election results and opinion polls over time. The model covers:

- **the stored records** (`records.dfy`): the DataPoint schema (one candidate's
  share in one poll or one official result) and the Election schema with its
  rounds. It models their required paths, enums, ranges and defaults, and the
  validation that accepts or rejects a document.
- **the data-point API** (`search.dfy`): `GET /filters`, which sorts the
  distinct values of each filter field and drops empty cities. `POST /search`
  builds a MongoDB `$match` query from the request body, a `$group` key from
  `group_by`, and runs the `$match` / `$group` (`$sum` of `value`) / `$sort` by
  date pipeline.
- **the trends chart** (`chart.dfy`): `processChartData`. It groups the rows
  sent back by `/search` into series, collects and sorts the dates, computes
  the y maximum, and builds one Chart.js dataset per series: merged
  poll/result values, marker sizes and political colours.
- **the 2022 poll importer** (`import.dfy`): the loops over polls, rounds,
  hypotheses and candidates. It models the skip rules, name normalisation,
  party and nuance mapping, the data points it creates and its two counters.
- **the client store** (`store.dfy`) and **the navigation bar** (`navbar.dfy`):
  the user / organization / collapsed-navigation store with its setters, and
  the navigation bar's highlighted entry, mobile menu, collapse toggle and
  logout.
- **shared values** (`values.dfy`): the field values of a document with BSON's
  comparison order, and the sort used by `$sort` and by JavaScript's `sort`.

Dates are day numbers. JavaScript numbers are reals. Database calls become
functions over sequences of documents.

## Model

| member | source | states |
|---|---|---|
| Values.SortBy | api/src/controllers/datapoint.js:97 | the result is ordered by the key in BSON order and is a permutation of the input (same multiset, same length) |
| Values.SortByDistinct | api/src/controllers/datapoint.js:97 | sorting a list without duplicates gives a list without duplicates |
| Values.InsertBy | api/src/controllers/datapoint.js:97 | inserting into a sorted list keeps it sorted and adds exactly one occurrence of the element |
| Values.LexLeqTotal | api/src/controllers/datapoint.js:20-24 | string order is total: one of any two strings comes first |
| Values.LexLeqTransitive | api/src/controllers/datapoint.js:20-24 | string order is transitive |
| Values.LexLeqAntisymmetric | api/src/controllers/datapoint.js:20-24 | two strings each ordered before the other are equal |
| Values.FieldLeqTotal | api/src/controllers/datapoint.js:97 | BSON order over missing, null, numbers, strings and dates is total |
| Values.FieldLeqTransitive | api/src/controllers/datapoint.js:97 | BSON order is transitive |
| Records.CreateDataPoint | api/src/models/datapoint.js:3-81 | accepted exactly when every required path is present, with the required strings (type, election_id, election_type, candidate_name, party, nuance, level) non-empty, and type, election_type, nuance and level are in their enums and value is in [0, 100]; an accepted record is valid, copies every given path, and defaults city to "" and poll_source to null |
| Records.DataPointRoundTrip | api/src/models/datapoint.js:3-81 | a stored data point is accepted back unchanged exactly when it is valid |
| Records.CreateElection | api/src/models/election.js:25-47 | accepted exactly when the required paths are present (election_id and election_type non-empty), the enums hold and both rounds are within range; defaults level to "national", location to "", tour_2 to null and source to "data.gouv.fr"; no tour_1 is always an error |
| Records.ElectionRoundTrip | api/src/models/election.js:3-47 | a valid election is accepted back unchanged, and only a valid one is |
| Records.ElectionDefaults | api/src/models/election.js:27-44 | a document with only the required paths gets exactly the schema's defaults; with an empty id it is rejected as missing election_id |
| Records.EmptyRequiredStringsRejected | api/src/models/datapoint.js:14-45 | an otherwise acceptable data point with an empty election_id, candidate_name or party is rejected as missing that path |
| Records.TourNumberNotNecessarilyWhole | api/src/models/election.js:5 | a round numbered 1.5 passes the schema's bounds |
| Search.SortStrings | api/src/controllers/datapoint.js:20-22 | the result is sorted in string order and is a permutation of the input |
| Search.DropEmpty | api/src/controllers/datapoint.js:23 | the result has no empty string and keeps every other value with its multiplicity |
| Search.ListFilters | api/src/controllers/datapoint.js:17-26 | each list is sorted and a permutation of the distinct values; cities lose exactly their empty strings |
| Search.GroupByField | api/src/controllers/datapoint.js:71 | group_by if it is a non-empty string; "party" when it is missing or empty |
| Search.Selects | api/src/controllers/datapoint.js:36-69 | defines what the request asks of a data point; Search.BuildMatchQuery proves the built query means exactly this |
| Search.Matches | api/src/controllers/datapoint.js:39-69 | defines `$match` on one document: `$in` is membership, `$gte`/`$lte` are inclusive, plain values are equalities |
| Search.BuildMatchQuery | api/src/controllers/datapoint.js:36-69 | the query matches a data point exactly when the request selects it: non-empty lists ask for membership, date bounds are inclusive, and level and city are equalities when non-empty |
| Search.FieldOf | api/src/controllers/datapoint.js:74-86 | defines the value of a document at a top-level path of the schema; other paths read as missing |
| Search.Eval | api/src/controllers/datapoint.js:74-86 | defines a path expression: `"$path"` reads the path, any other string is a literal; the handler evaluates only `"$" + name` for names Search.FieldNameOk accepts, so no `$$` variable reaches it |
| Search.EvalGroupId | api/src/controllers/datapoint.js:74-86 | defines the `_id` one document evaluates to; Search.BuildGroupId proves it is the document's own values at the key fields |
| Search.BuildGroupId | api/src/controllers/datapoint.js:74-86 | the `_id` has date, type, election_id and nuance, plus the group_by field when it is not nuance, each read from the document's own path; MongoDB accepts this `_id` exactly when group_by is a usable field name (no leading `$`, no `.`, no NUL character) |
| Search.MatchStage | api/src/controllers/datapoint.js:90 | keeps exactly the documents the query matches |
| Search.MatchStageIsSelected | api/src/controllers/datapoint.js:36-69 | a query equivalent to the request selects the same documents in the same order |
| Search.AddTo | api/src/controllers/datapoint.js:94 | defines adding one document to the groups; Search.AddToIds and Search.AddToSums state its effect |
| Search.GroupStage | api/src/controllers/datapoint.js:91-96 | defines `$group` with `$sum`; Search.GroupStageSpec states its result |
| Search.SortStage | api/src/controllers/datapoint.js:97 | defines `$sort` on `_id.date` as Values.SortBy, so it is ordered and a permutation |
| Search.RunPipeline | api/src/controllers/datapoint.js:89-98 | defines the three stages in order; Search.PipelineMeetsSearch and Search.PipelineTotal state its result |
| Search.AddToIds | api/src/controllers/datapoint.js:91-96 | adding a document to the groups adds its key and keeps one row per key |
| Search.AddToSums | api/src/controllers/datapoint.js:94 | adding a document adds its value to its own group's sum only, and to the grand total |
| Search.SumOfDistinct | api/src/controllers/datapoint.js:91-96 | with one row per key, a key's sum is the sum of its row |
| Search.SumOfAbsent | api/src/controllers/datapoint.js:91-96 | a key with no row sums to zero |
| Search.GroupStageSpec | api/src/controllers/datapoint.js:91-96 | `$group` gives one row per distinct key; each row's sum_value is the sum of the values of the documents with that key; the total is preserved |
| Search.PermutedRows | api/src/controllers/datapoint.js:97 | a reordering of the rows has the same rows and keys |
| Search.SortedGroupingIsGrouping | api/src/controllers/datapoint.js:97 | sorting the grouped rows keeps them a grouping of the same documents |
| Search.SortedDatedRows | api/src/controllers/datapoint.js:97 | rows sorted by `_id.date` are in non-decreasing date order |
| Search.PipelineMeetsSearch | api/src/controllers/datapoint.js:89-98 | the pipeline's output groups the selected documents by the request's key fields, one row per key with the key's sum, in date order |
| Search.RowsTotalRemove | api/src/controllers/datapoint.js:97 | the total of the rows is one row's sum plus the total of the others |
| Search.RowsTotalPermutation | api/src/controllers/datapoint.js:97 | reordering rows does not change their total |
| Search.ProjectAllTotal | api/src/controllers/datapoint.js:91-96 | projecting documents onto their keys keeps the total of their values |
| Search.PipelineTotal | api/src/controllers/datapoint.js:89-98 | the sums in the output add up to the total value of the selected documents |
| Search.HandleSearch | api/src/controllers/datapoint.js:34-105 | the handler answers 500 exactly when group_by starts with `$` or contains `.` or a NUL character, which `$group` and BSON reject; otherwise its rows are the grouping of the selected documents in date order, and their sums add up to the selected documents' total |
| Search.FixedKeyFieldsOk | api/src/controllers/datapoint.js:74-86 | date, type, election_id and nuance are usable field names, so the `_id` is usable exactly when group_by is |
| Search.UnusableGroupByFails | api/src/controllers/datapoint.js:71-83 | a group_by of "$x", "a.b" or "a\0b" (with a NUL character) is not a usable field name, so the handler answers 500 |
| Chart.RowValue | app/src/scenes/trends/index.jsx:105-107 | a row has a value under "sum_value" and under no other name |
| Chart.IdField | app/src/scenes/trends/index.jsx:91-94 | defines `item._id[field]`; a field the key lacks reads as missing |
| Chart.KeysInOrder | app/src/scenes/trends/index.jsx:96-102 | defines the keys in order of first appearance; Chart.KeysInOrderMembers and Chart.KeysInOrderDistinct state what they are |
| Chart.FirstNuance | app/src/scenes/trends/index.jsx:94-101 | defines a key's nuance; Chart.FirstNuanceIsFirst proves it is that of the key's first row |
| Chart.GroupOf | app/src/scenes/trends/index.jsx:90-109 | defines a key's group: its polls, its results and its nuance; Chart.GroupEntries and Chart.PollsResultsPartition state its contents |
| Chart.GroupRows | app/src/scenes/trends/index.jsx:88-109 | the keys come in order of first appearance; each key's group holds its polls and results in row order, and the nuance of the key's first row |
| Chart.GroupOfAbsent | app/src/scenes/trends/index.jsx:96-102 | a key that no row has gets no group |
| Chart.GroupOfSnocIsGroupOf | app/src/scenes/trends/index.jsx:90-109 | processing one more row appends it to its own group only |
| Chart.KeysInOrderMembers | app/src/scenes/trends/index.jsx:96-102 | the keys are exactly the values the rows have at the group_by field |
| Chart.KeysInOrderDistinct | app/src/scenes/trends/index.jsx:96-102 | each key appears once |
| Chart.KeysInOrderPrefix | app/src/scenes/trends/index.jsx:96-102 | more rows only add keys after the existing ones |
| Chart.FirstNuanceSnoc | app/src/scenes/trends/index.jsx:96-101 | a later row does not change an existing group's nuance; a new key takes its first row's nuance |
| Chart.FirstNuanceAppend | app/src/scenes/trends/index.jsx:96-101 | once a key has a row, later rows do not change its nuance |
| Chart.FirstNuanceSkip | app/src/scenes/trends/index.jsx:96-101 | rows of other keys do not affect a key's nuance |
| Chart.FirstNuanceIsFirst | app/src/scenes/trends/index.jsx:96-101 | a group's nuance is the nuance of the first row with that key |
| Chart.FirstNuanceFound | app/src/scenes/trends/index.jsx:96-101 | any key some row has gets the nuance of its first row |
| Chart.NuanceGroupsKeepTheirNuance | app/src/scenes/trends/index.jsx:96-101 | grouped by nuance, each group's nuance is its own key |
| Chart.PollsResultsPartition | app/src/scenes/trends/index.jsx:104-108 | a key's rows split into its polls and its results; the polls are the rows of type "poll" |
| Chart.GroupEntries | app/src/scenes/trends/index.jsx:104-108 | a point is among a key's polls (results) exactly when a poll row (non-poll row) with that key gave it |
| Chart.AddDates | app/src/scenes/trends/index.jsx:113-116 | the set of seen dates grows by exactly the points' dates, and the insertion-ordered list stays duplicate-free with the same elements |
| Chart.CollectLabels | app/src/scenes/trends/index.jsx:111-117 | the labels are strictly increasing and are exactly the dates of all groups |
| Chart.SortDays | app/src/scenes/trends/index.jsx:117 | sorting distinct dates chronologically gives a strictly increasing list of the same dates |
| Chart.SortedDistinctDaysIncrease | app/src/scenes/trends/index.jsx:117 | sorted dates without duplicates are strictly increasing |
| Chart.GroupDatesAreRowDates | app/src/scenes/trends/index.jsx:111-117 | the dates collected from the groups are exactly the dates of the rows |
| Chart.DatesInMembers | app/src/scenes/trends/index.jsx:113-116 | a date is collected exactly when some group has it |
| Chart.StrictlyIncreasingUnique | app/src/scenes/trends/index.jsx:117 | the labels depend only on the set of dates, not on the order in which they were seen |
| Chart.SameHeadSameTail | app/src/scenes/trends/index.jsx:117 | two increasing lists with the same dates start with the same date, and their tails have the same dates |
| Chart.Find | app/src/scenes/trends/index.jsx:138-139 | none exactly when no point has the date; otherwise the first point at that date |
| Chart.CellAt | app/src/scenes/trends/index.jsx:137-141 | a gap exactly when neither a result nor a poll has the date; a result's value wins over a poll's; otherwise the first poll's value |
| Chart.CombinedData | app/src/scenes/trends/index.jsx:137-141 | one cell per label, a gap exactly where the series has no point |
| Chart.PointRadius | app/src/scenes/trends/index.jsx:144-147 | one radius per label: 8 exactly where there is a result, else 3 |
| Chart.PointBorderWidth | app/src/scenes/trends/index.jsx:149-152 | one width per label: 3 exactly where there is a result, else 1 |
| Chart.ColorOf | app/src/scenes/trends/index.jsx:11-18 | the table's colour for a key in the table, gray for any other value; always gray or a table colour |
| Chart.SeriesColor | app/src/scenes/trends/index.jsx:134 | always one of the POLITICAL_COLORS entries or gray; grouped by nuance the key's own colour, otherwise the colour of the group's nuance |
| Chart.NuanceColors | app/src/scenes/trends/index.jsx:11-18 | the six nuances have six different colours, and only "Autre" is gray |
| Chart.MakeDataset | app/src/scenes/trends/index.jsx:133-166 | the dataset is labelled by its key, has one entry per label, one colour for line, fill and points, the merged cell at each label, a large marker exactly where a result is plotted, the radius and border-width lists of the page, a white point border, tension 0.3 and line width 2 |
| Chart.BuildDatasets | app/src/scenes/trends/index.jsx:131-166 | one dataset per key, in key order |
| Chart.MaxOver | app/src/scenes/trends/index.jsx:122-127 | the maximum does not decrease, no point's value exceeds it, and it is either the old maximum or some point's value |
| Chart.MaxValue | app/src/scenes/trends/index.jsx:119-128 | the maximum is non-negative, bounds every value of every group, and is 0 or a value some group has |
| Chart.ProcessChartData | app/src/scenes/trends/index.jsx:86-172 | the chart's labels are the distinct row dates in increasing order, and it has one dataset per key in order of first appearance, built from that key's group |
| Chart.SearchRowsAreDated | api/src/controllers/datapoint.js:74-75 | every row the search sends has a date in its `_id` |
| Chart.EntryValues | app/src/scenes/trends/index.jsx:105-107 | a point has a value exactly when the value is read from "sum_value" |
| Chart.AvgValueChartHasNoValues | app/src/scenes/trends/index.jsx:105-107 | reading avg_value, every cell of every dataset is null (no point at that date) or undefined (a point without a value) |
| Chart.SumValueChartPlotsSums | api/src/controllers/datapoint.js:94 | reading sum_value, every plotted cell is the sum of a row with the series' key, at that cell's date, and of a result row whenever the series has one at that date |
| PollImport.TourNumber | api/src/scripts/import_polls_2022.js:139 | 1 exactly for "Premier tour", otherwise 2 |
| PollImport.NormalizedName | api/src/scripts/import_polls_2022.js:154 | the table's spelling of a known name, the name itself otherwise |
| PollImport.NormalizedNameIdempotent | api/src/scripts/import_polls_2022.js:64-81 | normalising a normalised name changes nothing |
| PollImport.PartyCode | api/src/scripts/import_polls_2022.js:155 | the table's code of a known party, the name itself otherwise |
| PollImport.PartyCodeEmpty | api/src/scripts/import_polls_2022.js:18-43 | only the empty name maps to the empty code |
| PollImport.MapParties | api/src/scripts/import_polls_2022.js:155 | no empty code, and no more codes than parties |
| PollImport.MapPartiesElementwise | api/src/scripts/import_polls_2022.js:155 | the codes are the non-empty party names mapped one by one, in order and with their multiplicity (mapping then dropping empty codes equals dropping empty names then mapping); without empty names, the parties mapped one by one |
| PollImport.MapPartiesMembers | api/src/scripts/import_polls_2022.js:155 | a code is listed exactly when some non-empty party maps to it |
| PollImport.MapPartiesEmpty | api/src/scripts/import_polls_2022.js:155 | the codes are empty exactly when every party name is empty |
| PollImport.PartiesOrDefault | api/src/scripts/import_polls_2022.js:165 | the mapped codes, or ["AUTRE"] when there are none; never empty |
| PollImport.NuanceOf | api/src/scripts/import_polls_2022.js:156 | the table's nuance for a known raw name, "Autre" otherwise; always one of the schema's nuances |
| PollImport.NuanceNeedsRawName | api/src/scripts/import_polls_2022.js:154-156 | the nuance is looked up by the raw name: looked up by the normalised name it would change |
| PollImport.Derive | api/src/scripts/import_polls_2022.js:154-173 | defines the document built for one entry; PollImport.CandPointsFields states its fields |
| PollImport.ImportCandidates | api/src/scripts/import_polls_2022.js:147-177 | appends exactly the points of the eligible candidates of one hypothesis, and the counter equals the number of points |
| PollImport.ImportTour | api/src/scripts/import_polls_2022.js:138-179 | appends the points of every hypothesis of the round, numbered by the round's label |
| PollImport.ImportPolls | api/src/scripts/import_polls_2022.js:114-182 | counts every poll, creates the points of all polls in order, and the data-point counter equals the number of eligible candidates |
| PollImport.CandPointsCount | api/src/scripts/import_polls_2022.js:148-152 | one point per candidate with intentions and a name |
| PollImport.CountEligibleSnoc | api/src/scripts/import_polls_2022.js:148-152 | one more candidate adds one to the count exactly when it is eligible |
| PollImport.HypPointsCount | api/src/scripts/import_polls_2022.js:141-178 | a round's points number its hypotheses' eligible candidates |
| PollImport.EligibleInHypothesesSnoc | api/src/scripts/import_polls_2022.js:141-178 | one more hypothesis adds its eligible candidates |
| PollImport.TourPointsCount | api/src/scripts/import_polls_2022.js:138-179 | a poll's points number its rounds' eligible candidates |
| PollImport.EligibleInToursSnoc | api/src/scripts/import_polls_2022.js:138-179 | one more round adds its eligible candidates |
| PollImport.EligibleInPollsSnoc | api/src/scripts/import_polls_2022.js:117-182 | one more poll adds its eligible candidates |
| PollImport.ImportCount | api/src/scripts/import_polls_2022.js:175-176 | the number of created points is the number of eligible candidates over all polls |
| PollImport.CandPointsFields | api/src/scripts/import_polls_2022.js:158-173 | each point of a hypothesis carries the poll's fixed fields, date and id, the round number and the hypothesis |
| PollImport.HypPointsFields | api/src/scripts/import_polls_2022.js:158-173 | each point of a round carries the poll's fields and the round number |
| PollImport.TourPointsFields | api/src/scripts/import_polls_2022.js:158-173 | each point of a poll carries that poll's fields |
| PollImport.ImportFields | api/src/scripts/import_polls_2022.js:158-173 | each created point comes from one of the polls |
| PollImport.SchemaView | api/src/scripts/import_polls_2022.js:158-173 | defines what the schema keeps of an imported document: undeclared paths dropped, so no `value` |
| PollImport.ImportedPointRejected | api/src/scripts/import_polls_2022.js:158-175 | the document the importer builds never passes DataPoint validation, whatever the party array casts to |
| PollImport.CorrectedPointAccepted | api/src/models/datapoint.js:66-72 | with the intention stored in `value` and one party string, an imported point is accepted exactly when the party is non-empty and the intention is a percentage (with one of its own party labels, exactly when the intention is a percentage), and keeps that value and its poll id |
| PollImport.PollsCountedBeforeAbort | api/src/scripts/import_polls_2022.js:114-190 | as written, with every save rejected: the polls counted are all of them when no entry passes the skip rules, otherwise up to and including the first poll with such an entry, none before it having one |
| PollImport.AbortCountsFewerPolls | api/src/scripts/import_polls_2022.js:135-190 | as written, an entry passing the skip rules before the last poll leaves fewer polls counted than the file holds |
| PollImport.PointsCountedBeforeAbort | api/src/scripts/import_polls_2022.js:147-176 | the data points counted are the longest prefix whose saves succeed: every counted save succeeds and the next one fails |
| PollImport.NoDataPointCountedAsWritten | api/src/scripts/import_polls_2022.js:158-190 | as written, with every `Poll` save succeeding, datapointCount stays 0 for any file and any cast of the party array |
| AppStore.WithUser | app/src/services/store.js:5 | sets the user and leaves the rest |
| AppStore.WithOrganization | app/src/services/store.js:8 | sets the organization and leaves the rest |
| AppStore.WithNavCollapsed | app/src/services/store.js:11 | sets the collapsed flag and leaves the rest |
| AppStore.SettersIdempotentAndIndependent | app/src/services/store.js:3-12 | each setter is idempotent, and setters of different fields commute |
| AppStore.LastWriteWins | app/src/services/store.js:5-11 | of two writes to the user, the organization or the collapsed flag, the last one wins |
| AppStore.Store.constructor | app/src/services/store.js:3-12 | starts with no user, no organization and the navigation expanded |
| AppStore.Store.SetUser | app/src/services/store.js:5 | the new state is the old one with the user replaced |
| AppStore.Store.SetOrganization | app/src/services/store.js:8 | the new state is the old one with the organization replaced |
| AppStore.Store.SetNavCollapsed | app/src/services/store.js:11 | the new state is the old one with the flag replaced |
| Nav.Includes | app/src/components/NavBar.jsx:25 | defines `includes`; Nav.IncludesIffOccurs states its meaning |
| Nav.IncludesIffOccurs | app/src/components/NavBar.jsx:25 | `includes` holds exactly when the entry's path occurs at some position of the location |
| Nav.MissingLeadIsNotIncluded | app/src/components/NavBar.jsx:25 | a location without the entry path's first character does not include it |
| Nav.FindIndex | app/src/components/NavBar.jsx:25 | -1 exactly when no entry's path is included, otherwise the first entry whose path is |
| Nav.SelectedFor | app/src/components/NavBar.jsx:24-27 | the first menu entry whose path the location includes, or the first entry when none does |
| Nav.TrendsSelectsFirst | app/src/components/NavBar.jsx:12-15 | on "/trends" the first entry is highlighted |
| Nav.ElectionsSelectsSecond | app/src/components/NavBar.jsx:12-15 | on "/elections" the second entry is highlighted |
| Nav.UnknownPageSelectsFirst | app/src/components/NavBar.jsx:24-27 | on "/auth" the first entry is highlighted |
| Nav.NavBar.constructor | app/src/components/NavBar.jsx:21-22 | the first entry is highlighted and the mobile menu is closed |
| Nav.NavBar.LocationChanged | app/src/components/NavBar.jsx:24-32 | a new location highlights its entry and closes the mobile menu |
| Nav.NavBar.ToggleMobile | app/src/components/NavBar.jsx:43 | flips the mobile menu and keeps the highlight, a valid menu index |
| Nav.NavBar.CloseOverlay | app/src/components/NavBar.jsx:48 | the overlay, shown only while the menu is open, closes it and keeps the highlight valid |
| Nav.NavBar.ToggleCollapse | app/src/components/NavBar.jsx:76 | flips the store's collapsed flag, leaves the rest of the store and keeps the highlight valid |
| Nav.NavBar.ClickMenu | app/src/components/NavBar.jsx:101 | highlights the clicked entry, a valid menu index |
| Nav.NavBar.Logout | app/src/components/NavBar.jsx:34-38 | clears the store's user, leaves the rest of the store and keeps the highlight valid |

## Left out

- Database access (`distinct`, `aggregate`, `save`, `deleteMany`), HTTP routing, the 500 answer for database failures (the one for an unusable group_by is modelled by Search.HandleSearch), `fs`, `dotenv` and logging are left out. The model works on sequences of documents and request bodies.
- The creation of Poll records by the importer (api/src/scripts/import_polls_2022.js:119-134) is left out. The Poll schema is not part of this model; only the poll counter is kept.
- The deletion of earlier imports (api/src/scripts/import_polls_2022.js:110-112) is left out because it is a database call.
- Date parsing and `toLocaleDateString("fr-FR")` are not modelled. Dates are whole day numbers, so two rows on the same day give the same label, as the French day string does. Time zones and times within a day are not modelled.
- JavaScript object key order is modelled as insertion order. Integer-like keys, which `Object.keys` lists first, and the coercion of a key value to a property-name string (two different values with the same string) are not modelled.
- Lookups of inherited property names such as "constructor" are not modelled. In `POLITICAL_COLORS[key]` such a key is gray in the model. In `groupedData[key]` (app/src/scenes/trends/index.jsx:96) the inherited value is truthy, so no group is made and `push` throws. In the importer's three tables (api/src/scripts/import_polls_2022.js:154-156) the lookup would return a function. The model treats every such name as absent from the table.
- String order compares characters. The UTF-16 code-unit order of JavaScript and the byte order of MongoDB agree on the names used here but are not modelled separately.
- Records.CreateDataPoint and Records.CreateElection report the first broken rule in path order, while mongoose collects every error. Whether a document is accepted is the same: a required String given as "" counts as missing, as in mongoose.
- Records.CreateElection checks a round as a whole (`Valid`); the per-path messages inside a round and casting errors are not modelled.
- Records.CreateDataPoint models fields as already cast to their types. Mongoose's casting (for example, of an array to a String) is only modelled as the `partyCast` parameter of PollImport.ImportedPointRejected.
- Strict mode dropping undeclared paths (`election_tour`, `poll_id`, `hypothese`, `result_pourcentage_exprime`) is modelled only in PollImport.SchemaView.
- PollImport.ImportPolls, PollImport.ImportTour and PollImport.ImportCandidates assume every `save` succeeds: their counters and points are what the loops produce when nothing throws. As written every save is rejected (see Findings), and the first rejection leaves all loops for the final `catch`; PollImport.PollsCountedBeforeAbort and PollImport.NoDataPointCountedAsWritten state the counts in that case, assuming every `Poll` save (line 134) succeeds, since the Poll schema (api/src/models/poll.js) is not part of this model.
- Search.HandleSearch takes the request body as well-typed: each list field is a list of strings or absent, the dates are dates, and level, city and group_by are strings or absent. A body of another shape, such as a string `parties` that makes `$in` throw (api/src/controllers/datapoint.js:52-54), is answered with 500 by the source and is not modelled.
- Search.Eval treats every string starting with `$` as a path, so `"$$name"` reads the path `$name`, where MongoDB reads a variable. The handler never evaluates such a string: an `_id` whose field would give one is refused first (Search.HandleSearch).
- Search.FieldOf reads only the paths the schema declares. `_id`, `__v`, `createdAt` and `updatedAt`, which every stored document also has, read as missing. A `group_by` naming one of them is not rejected (api/src/controllers/datapoint.js:71-83), and the model then groups differently from MongoDB, where `_id` gives one row per document.
- A candidate whose `parti` is missing makes the importer throw (api/src/scripts/import_polls_2022.js:155). The model takes `parti` as always present.
- The importer's innermost loop and its hypotheses loop are written as the helper methods PollImport.ImportCandidates and PollImport.ImportTour, which keep the same loop order.
- Logout's `api.removeToken()` and `navigate("/auth")` are left out because they are calls into other modules. Nav.UnknownPageSelectsFirst states what the navigation bar does on that page.
- Chart rendering, chart options, the loading flag, toasts, the filter form and the request body built by `fetchChartData` are left out. The y maximum is computed (Chart.MaxValue) but the source never uses it.
- The unique index on `election_id` and the other indexes are left out; they affect speed and duplicate inserts, not the values modelled.
- Floating-point rounding in `$sum` is not modelled; values are reals.
- Chart.ProcessChartData requires every row to carry a date. Chart.SearchRowsAreDated shows that the search endpoint's rows always do.
- Chart.RowValue models `item[field]` only for the fields a row has: `sum_value` is a number and every other name is undefined. Reading `_id` itself would give an object and is not modelled.
- Records.TourData.Valid follows the schema's bounds: `tour_number` lies in [1, 2] but need not be whole. Records.TourNumberNotNecessarilyWhole exhibits 1.5.
- Search.GroupByField defaults to "party", as the server code does. The trends page always sends its own choice, "nuance" by default.
- The chart plots each group's sums as they come. No averaging of several points on the same date is modelled, because the code does none.

## Findings

| source | as written | input that shows it | evidently intended | confidence | as-written member | corrected member |
|---|---|---|---|---|---|---|
| app/src/scenes/trends/index.jsx:105-107 | the chart reads `item.avg_value`, but the search endpoint sends `sum_value` (api/src/controllers/datapoint.js:94) | any non-empty search result, e.g. one row `{ _id: { date, type: "poll", nuance: "Gauche" }, sum_value: 30 }` | the chart plots the value the endpoint sends | not executed | Chart.AvgValueChartHasNoValues | Chart.SumValueChartPlotsSums |
| api/src/scripts/import_polls_2022.js:158-173 | the importer stores the intention under `result_pourcentage_exprime` (an undeclared path that strict mode drops) and never sets the required `value`; the awaited `save` then throws to the `catch` at line 190, so the import stops at its first entry, no data point is stored and `datapointCount` stays 0 (PollImport.PollsCountedBeforeAbort gives the polls counted) | any eligible candidate, e.g. intentions 25 for "Marine Le Pen" | the intention is stored in `value`, so that the point validates and the search can sum it | not executed | PollImport.ImportedPointRejected | PollImport.CorrectedPointAccepted |
