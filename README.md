# Performance-overview dashboard components in Dafny

This project models the logic inside four React components of an
advertising-performance dashboard:

- **Aggregated view** (`AggregatedView.jsx`). It fetches one aggregated
  record per tag for an operator, a date range and a region filter. It
  turns each record into a 22-field table row, with a default for every
  missing property and fixed placeholders for the share columns. It sorts
  the rows on one column, toggling between ascending and descending. It
  renders each cell with the component its column calls for, and exports
  the shown rows as CSV text.
- **Data table** (`AdvancedDataTable.jsx`). A wrapper around the data grid
  shared by both views. It resolves its props' defaults and computes its
  height as the content height capped at `dynamicHeight`. From that height
  it derives the `autoHeight` and `overflow` flags, and it hands the grid
  rows numbered `1, 2, …` unless a row has its own `id`.
- **Goals overview** (`GoalsOverview.jsx`). Five fixed goals are filtered
  by status: "Active" means either outcome, any other entry that status
  alone. The card counts the shown goals for its doughnut, exports them
  under six upper-case column names, and colours the status cell. Refresh
  resets the rows and the filter.
- **Goal form** (`AddEditGoal.jsx`). Seven of its nine fields are seeded
  from the goal being edited, or `""`. The metric condition always starts
  as "Equals", and the list of extra conditions starts as one empty
  condition. Appending to that
  list and editing one condition in place are the form's two list
  operations. Submitting hands all nine fields to the parent and then
  closes the form, with no validation.

The modules follow the components. `JsValues` holds the JavaScript
operators the components rely on: truthiness, `||`, `String(v)`,
`toLowerCase`/`toUpperCase` and `localeCompare`. `AggregatedRows`,
`AggregatedSort`, `AggregatedCsv` and `AggregatedView` together model
`AggregatedView.jsx`. `AdvancedDataTable`, `GoalsOverview` and
`AddEditGoal` model the other three files.

In the aggregated view, the goals overview and the goal form, component
state that the source replaces through setters is a Dafny `class`:

- `AggregatedViewState` and `GoalsOverviewState` have methods whose
  contracts give the whole new state.
- The goal form's conditions are objects that `handleConditionChange`
  writes in place. In the model they are `Condition` objects, and
  `ChangeCondition` modifies exactly one of them.

The data table's two state variables, the page size and the computed
height, are a `TableState` value. Its transitions (`HeightEffect`,
`PaginationChange`) are functions from the old state to the new one.

The aggregated view's sort copies the mapped rows into an array and sorts
that array in place. It is proved to yield a permutation ordered by the
comparator.

The comparator the view hands to `Array.prototype.sort` compares
non-transitively when a column mixes numbers and strings. Numbers compare
by difference, anything else by its string. So on a column holding 9, 10
and "5" it gives 9 < 10, 10 < "5" and "5" < 9
(`AggregatedSort.MixedColumnIsInconsistent`), and no arrangement of those
three values satisfies every comparison (`MixedColumnHasNoOrder`). Not
every mixed column is like that: 1 and "zzz" are ordered consistently. The
sort is therefore specified by what holds for any comparator: every row is
"not after" its successor. Full pairwise order is proved for columns that are
all numbers or contain no numbers (`AdjacentSortedIsSorted`,
`NumericColumnOrder`).

The CSV export is given a reader (`SplitLines`, `ParseFields`,
`ParseCsv`) so that its structure can be stated as a round trip. The
reader reads the text back as the header row plus one 11-cell row per
shown row, as long as no string cell holds a `"` or a newline. Quotes do
not affect the line structure: without newlines in the cells, the text has
one line per shown row plus the header line (`ExportCsvLines`). A `"` in a
cell is written unescaped, and such text does not read back as the same
cells (`EmbeddedQuoteNotEscaped`).

## Model

| member | source | states |
|---|---|---|
| JsValues.IntToString | src/assets/components/functional/performanceOverview/overview/AggregatedView.jsx:152-153 | `String(n)` of an integer is its decimal notation, with a leading `-` exactly for negative numbers, no leading zero except in "0" itself, and reading the digits back gives the magnitude |
| JsValues.FalsyValues | src/assets/components/functional/performanceOverview/overview/AggregatedView.jsx:51-72 | `Truthy`: exactly `undefined`, `null`, `false`, `0` and `""` are falsy |
| JsValues.OrLaws | src/assets/components/functional/performanceOverview/overview/AggregatedView.jsx:51-72 | `Or`, JavaScript's logical-or operator on `v` and `d`: the result is `v` when `v` is truthy and `d` otherwise, and it is truthy exactly when either operand is |
| JsValues.GetLaws | src/assets/components/functional/performanceOverview/overview/AggregatedView.jsx:51-72 | `Get`, the property access `item.key`: a present property reads as its value, a missing one as `undefined`, and anything but `undefined` comes from a present property |
| JsValues.ToJsStringShape | src/assets/components/functional/performanceOverview/overview/AggregatedView.jsx:151-153 | `ToJsString`, i.e. `String(v)`: a string is kept as it is; any other scalar becomes a non-empty text without quote or newline; a non-negative number becomes digits that read back as that number |
| JsValues.NatToStringValue | src/assets/components/functional/performanceOverview/overview/AggregatedView.jsx:202 | the decimal notation interpolated into a cell denotes the number it came from |
| JsValues.ToLower | src/assets/components/functional/performanceOverview/overview/AggregatedView.jsx:98 | `toLowerCase` keeps the length, lowers each letter and leaves no upper-case letter |
| JsValues.ToLowerFixesLower | src/assets/components/functional/performanceOverview/overview/AggregatedView.jsx:98 | lower-casing a string without upper-case letters changes nothing, so it is idempotent |
| JsValues.ToUpper | src/assets/components/functional/performanceOverview/overview/AggregatedView.jsx:164 | `toUpperCase` keeps the length and raises each letter |
| JsValues.LexCompare | src/assets/components/functional/performanceOverview/overview/AggregatedView.jsx:152-153 | the string comparison yields -1, 0 or 1, and 0 exactly for equal strings |
| JsValues.LexCompareAntisymmetric | src/assets/components/functional/performanceOverview/overview/AggregatedView.jsx:151-153 | swapping the operands negates the comparison, which is what "desc" relies on |
| JsValues.LexCompareTransitive | src/assets/components/functional/performanceOverview/overview/AggregatedView.jsx:151-153 | "not after" on strings is transitive |
| AggregatedRows.MapRecords | src/assets/components/functional/performanceOverview/overview/AggregatedView.jsx:47-74 | one row per record, in order; no records give no rows |
| AggregatedRows.FieldNamedInverse | src/assets/components/functional/performanceOverview/overview/AggregatedView.jsx:50-73 | every row field is found again under its own property name, so no two fields share a name |
| AggregatedRows.LookupByName | src/assets/components/functional/performanceOverview/overview/AggregatedView.jsx:169-192 | `row[key]` for a field's name is that field's value |
| AggregatedRows.ProjectFollowsFieldTable | src/assets/components/functional/performanceOverview/overview/AggregatedView.jsx:50-73 | `Project`, the mapping of one record to a row: read by its name, each row field is the record's property when truthy and its fallback otherwise (`revenue` from `roas`), or the same constant placeholder whatever the record |
| AggregatedRows.MissingPropertyTakesFallback | src/assets/components/functional/performanceOverview/overview/AggregatedView.jsx:51-72 | a field whose property is missing reads `""` for the tag and 0 for every number |
| AggregatedRows.HeadersAreRowFields | src/assets/components/functional/performanceOverview/overview/AggregatedView.jsx:18-30 | every key of `HEADERS` names a field of the row |
| AggregatedRows.ChangeFieldName | src/assets/components/functional/performanceOverview/overview/AggregatedView.jsx:186 | for each of the nine percent-change columns, the column name followed by "Change" names its change field |
| AggregatedRows.RenderField | src/assets/components/functional/performanceOverview/overview/AggregatedView.jsx:168-192 | `RenderCell`, the column's `renderCell`: exactly the nine listed columns have a change field, and each of them is shown as a percent-change cell beside the value of that field, with 0 when the change is falsy; market share is shown as its string followed by "%", and every other column shows its raw value |
| AggregatedRows.RenderProjectedRow | src/assets/components/functional/performanceOverview/overview/AggregatedView.jsx:168-193 | on a projected row, exactly the nine listed columns use the percent-change cell; spends is shown beside the API change (or 0); the share columns and ROAS beside a change of 0; market share reads "0%"; the tag is shown raw |
| AggregatedSort.ToggleSortAlternates | src/assets/components/functional/performanceOverview/overview/AggregatedView.jsx:212-217 | the toggle selects the clicked key and descends exactly when that key was ascending, so two clicks from ascending return to ascending |
| AggregatedSort.ToggleSort | src/assets/components/functional/performanceOverview/overview/AggregatedView.jsx:212-217 | `handleSort` always selects the clicked key, and sorts descending exactly when the previous configuration was that key ascending |
| AggregatedSort.CompareSign | src/assets/components/functional/performanceOverview/overview/AggregatedView.jsx:145-155 | `Compare`, the comparator: two numbers compare negative exactly when the first comes first in the direction, and zero exactly when they are equal; any other pair gives -1, 0 or 1, and 0 exactly when their strings are equal |
| AggregatedSort.CompareAntisymmetric | src/assets/components/functional/performanceOverview/overview/AggregatedView.jsx:145-155 | the comparator is antisymmetric, and "desc" is "asc" with the operands swapped |
| AggregatedSort.CompareTransitive | src/assets/components/functional/performanceOverview/overview/AggregatedView.jsx:145-155 | on values that are all numbers, or with no two numbers, the comparator is transitive |
| AggregatedSort.MixedColumnIsInconsistent | src/assets/components/functional/performanceOverview/overview/AggregatedView.jsx:148-153 | on a column holding 9, 10 and "5" the comparator is a strict cycle: 9 is before 10, 10 is before "5" and "5" is before 9 |
| AggregatedSort.MixedColumnHasNoOrder | src/assets/components/functional/performanceOverview/overview/AggregatedView.jsx:145-155 | for any arrangement of the three values 9, 10 and "5", some value compares after a later one, so no order of that column satisfies every comparison |
| AggregatedSort.AdjacentSortedIsSorted | src/assets/components/functional/performanceOverview/overview/AggregatedView.jsx:145-155 | on a uniform column, ordered neighbours mean every pair is ordered |
| AggregatedSort.NumericColumnOrder | src/assets/components/functional/performanceOverview/overview/AggregatedView.jsx:148-149 | on a numeric column the sorted values run up for "asc" and down for "desc" |
| AggregatedSort.SortRows | src/assets/components/functional/performanceOverview/overview/AggregatedView.jsx:145-155 | the in-place sort leaves a permutation of the array in which every row is "not after" its successor |
| AggregatedSort.DisplayRows | src/assets/components/functional/performanceOverview/overview/AggregatedView.jsx:141-158 | `filteredData` is a permutation of the mapped rows: unchanged in order without a sort key, ordered by the column with one |
| AggregatedCsv.CsvRoundTrip | src/assets/components/functional/performanceOverview/overview/AggregatedView.jsx:201-203 | quoting cells, joining them with `,` and lines with `\n` reads back to the same table when no cell holds `"` or a newline |
| AggregatedCsv.JoinFieldsShape | src/assets/components/functional/performanceOverview/overview/AggregatedView.jsx:202 | `JoinFields`: a joined line is empty exactly when there are no cells, and otherwise opens and closes with a quote |
| AggregatedCsv.JoinLinesEnds | src/assets/components/functional/performanceOverview/overview/AggregatedView.jsx:201-203 | `JoinLines`: the joined text begins with the first line and ends with the last |
| AggregatedCsv.ExportCsvEnds | src/assets/components/functional/performanceOverview/overview/AggregatedView.jsx:198-203 | `ExportCsv`: the download begins with the header line and ends with the line of the last shown row |
| AggregatedCsv.CaptionsSafe | src/assets/components/functional/performanceOverview/overview/AggregatedView.jsx:18-30 | no label of `HEADERS` holds a quote or a newline |
| AggregatedCsv.HeaderCellsSafe | src/assets/components/functional/performanceOverview/overview/AggregatedView.jsx:199 | the header row holds the 11 labels of `HEADERS`, upper-cased, in order |
| AggregatedCsv.ExportCsvRoundTrip | src/assets/components/functional/performanceOverview/overview/AggregatedView.jsx:198-203 | when no cell holds a `"` or a newline, the export has one line per shown row plus the header line, and it reads back as the header row followed by 11 cells per row, cell `j` being `String(row[HEADERS[j].key])` |
| AggregatedCsv.ExportCsvLines | src/assets/components/functional/performanceOverview/overview/AggregatedView.jsx:198-203 | whatever quotes the values hold, as long as none holds a newline, the export has one line per shown row plus the header line: first the quoted upper-case captions, then each row's quoted values in display order |
| AggregatedCsv.EmbeddedQuoteNotEscaped | src/assets/components/functional/performanceOverview/overview/AggregatedView.jsx:202 | a `"` inside a cell is written as it is, and the text does not read back as the same cells |
| AggregatedView.RegionParamIsLowerCase | src/assets/components/functional/performanceOverview/overview/AggregatedView.jsx:91-98 | for every filter except "Ad Type" the parameter is the filter lower-cased |
| AggregatedView.AdTypeParam | src/assets/components/functional/performanceOverview/overview/AggregatedView.jsx:96-97 | "Ad Type" is sent as "ad_type", which is not its lower-cased form |
| AggregatedView.RegionParamIdempotent | src/assets/components/functional/performanceOverview/overview/AggregatedView.jsx:91-98 | mapping a parameter again leaves it unchanged |
| AggregatedView.RegionParam | src/assets/components/functional/performanceOverview/overview/AggregatedView.jsx:91-98 | the region parameter never holds an upper-case letter |
| AggregatedView.AggregatedUrl | src/assets/components/functional/performanceOverview/overview/AggregatedView.jsx:100 | the request URL starts with the aggregated-view endpoint and ends with the region parameter |
| AggregatedView.CacheKey | src/assets/components/functional/performanceOverview/overview/AggregatedView.jsx:101 | the cache key is `cache:GET:` followed by the URL itself |
| AggregatedView.CacheKeyInjective | src/assets/components/functional/performanceOverview/overview/AggregatedView.jsx:101 | two URLs share a cache key exactly when they are equal |
| AggregatedView.RegionCacheKeys | src/assets/components/functional/performanceOverview/overview/AggregatedView.jsx:91-101 | for one operator and date range, two region filters share a cache entry exactly when they send the same parameter |
| AggregatedView.RecordsOf | src/assets/components/functional/performanceOverview/overview/AggregatedView.jsx:114-131 | records are kept only from an ok response whose `aggregated_data` is an array, and from such a response the array is kept as it is; any other outcome clears the table |
| AggregatedView.AggregatedViewState.constructor | src/assets/components/functional/performanceOverview/overview/AggregatedView.jsx:33-41 | the view starts on "Business", with no sort key, not loading and no records |
| AggregatedView.AggregatedViewState.HandleSort | src/assets/components/functional/performanceOverview/overview/AggregatedView.jsx:212-217 | the sort configuration becomes the toggle of the previous one; nothing else changes |
| AggregatedView.AggregatedViewState.SetRegionFilter | src/assets/components/functional/performanceOverview/overview/AggregatedView.jsx:235 | the region filter becomes the chosen one; nothing else changes |
| AggregatedView.AggregatedViewState.FetchAggregated | src/assets/components/functional/performanceOverview/overview/AggregatedView.jsx:78-135 | without an operator or a date range nothing happens; otherwise loading ends false; without a token the records are cleared and no request is made; with one, the request has the region's URL, the `cache:GET:` key, a five-minute lifetime and the bearer token, and the records are the response's |
| AggregatedView.AggregatedViewState.Export | src/assets/components/functional/performanceOverview/overview/AggregatedView.jsx:198-203 | the exported CSV is that of the shown rows, which are the mapped rows in display order |
| AdvancedDataTable.ResolvePropsDefaults | src/assets/components/common/AdvancedDataTable.jsx:5-15 | `ResolveProps`, the prop defaults: with nothing passed: no columns or rows, not loading, no checkboxes, footer and export shown, a cap of 748, page size 10 and options 10, 25 and 50; each of the nine props, when passed, is used as passed |
| AdvancedDataTable.ComputedHeight | src/assets/components/common/AdvancedDataTable.jsx:23-28 | the height is the smaller of the content height (52 per row, 56 for the header, 56 for the export toolbar, 14 of padding) and the cap |
| AdvancedDataTable.ContentHeightStep | src/assets/components/common/AdvancedDataTable.jsx:26 | `ContentHeight`: each further row adds 52 pixels of content |
| AdvancedDataTable.ComputedHeightMonotone | src/assets/components/common/AdvancedDataTable.jsx:26-28 | more rows never give a smaller height |
| AdvancedDataTable.FlagsComplementary | src/assets/components/common/AdvancedDataTable.jsx:44-49 | `AutoHeight` and `Overflow` on the computed height: `autoHeight` holds exactly when `overflow` is "visible", and that is exactly when the content fits below the cap |
| AdvancedDataTable.Overflow | src/assets/components/common/AdvancedDataTable.jsx:44 | `overflow` is either "auto" or "visible", and "visible" exactly when `autoHeight` holds |
| AdvancedDataTable.DefaultCapRowLimit | src/assets/components/common/AdvancedDataTable.jsx:12-49 | under the default cap the grid sizes itself for at most 11 rows with the toolbar and 13 without |
| AdvancedDataTable.AggregatedTableScrolls | src/assets/components/functional/performanceOverview/overview/AggregatedView.jsx:268-275 | the aggregated view's table of more than four rows sits at its 300-pixel cap and scrolls |
| AdvancedDataTable.GoalsTableScrolls | src/assets/components/functional/performanceOverview/GoalsOverviews/GoalsOverview.jsx:221-228 | the goals table of more than five rows sits at its 330-pixel cap and scrolls |
| AdvancedDataTable.AssignIds | src/assets/components/common/AdvancedDataTable.jsx:51 | one row per row, in order, each with the row's own properties plus `id`, which is the row's own id if it has one and its 1-based position otherwise |
| AdvancedDataTable.PositionalIdsDistinct | src/assets/components/common/AdvancedDataTable.jsx:51 | rows without ids are numbered 1, 2, 3, …, so their ids are distinct |
| AdvancedDataTable.OwnIdMayCollide | src/assets/components/common/AdvancedDataTable.jsx:51 | an own id can equal another row's positional id |
| AdvancedDataTable.Toolbar | src/assets/components/common/AdvancedDataTable.jsx:31-36 | CSV export is offered exactly when the export button is shown; printing never is |
| AdvancedDataTable.InitialState | src/assets/components/common/AdvancedDataTable.jsx:16-18 | the page size starts at `defaultPageSize` and the height at the cap |
| AdvancedDataTable.HeightEffect | src/assets/components/common/AdvancedDataTable.jsx:20-29 | while the container is not mounted the state is kept; once mounted the height becomes the computed height; the page size is never touched |
| AdvancedDataTable.PaginationChange | src/assets/components/common/AdvancedDataTable.jsx:58 | the page size becomes the model's and the height is kept |
| AdvancedDataTable.HeightEffectSettles | src/assets/components/common/AdvancedDataTable.jsx:20-29 | after the effect the height is within the cap; running it again, or after a page-size change, changes nothing |
| AdvancedDataTable.DefaultTableFirstRenders | src/assets/components/common/AdvancedDataTable.jsx:12-28 | the default table first renders at 748 pixels with page size 10, then shrinks to 126 pixels with no rows and sizes itself |
| GoalsOverview.FilterRows | src/assets/components/functional/performanceOverview/GoalsOverviews/GoalsOverview.jsx:69-73 | a row is kept exactly when it is in the input and its status passes: "Active" takes "Achieved" and "Not Achieved", any other filter its own status |
| GoalsOverview.Keeps | src/assets/components/functional/performanceOverview/GoalsOverviews/GoalsOverview.jsx:69-73 | a status passes a filter only when it is that filter's own status or the filter is "Active"; any other filter passes its own status |
| GoalsOverview.FilterRowsAppend | src/assets/components/functional/performanceOverview/GoalsOverviews/GoalsOverview.jsx:69-73 | filtering a concatenation filters each part, so the kept rows stay in order |
| GoalsOverview.FilterRowsMultiset | src/assets/components/functional/performanceOverview/GoalsOverviews/GoalsOverview.jsx:69-73 | each row is kept as often as it occurs when its status passes, and not at all otherwise |
| GoalsOverview.ActiveKeepsDecided | src/assets/components/functional/performanceOverview/GoalsOverviews/GoalsOverview.jsx:70-71 | when every status is one of the two outcomes, "Active" keeps every row |
| GoalsOverview.ActivePartition | src/assets/components/functional/performanceOverview/GoalsOverviews/GoalsOverview.jsx:69-73 | "Achieved" and "Not Achieved" together hold exactly the rows "Active" keeps, with no row in both |
| GoalsOverview.NoneKept | src/assets/components/functional/performanceOverview/GoalsOverviews/GoalsOverview.jsx:69-73 | a filter no row passes keeps nothing |
| GoalsOverview.ChartCounts | src/assets/components/functional/performanceOverview/GoalsOverviews/GoalsOverview.jsx:78-82 | the two doughnut values are the numbers of shown rows that are achieved and not achieved |
| GoalsOverview.CountStatus | src/assets/components/functional/performanceOverview/GoalsOverviews/GoalsOverview.jsx:78-82 | the count of a status is at most the number of rows, and for every status other than "Active" it is the number of rows that status filter keeps |
| GoalsOverview.ChartCountsCoverShown | src/assets/components/functional/performanceOverview/GoalsOverviews/GoalsOverview.jsx:69-82 | for every menu entry the two counts add up to the shown rows, and a single-status filter leaves the other count 0 |
| GoalsOverview.InitialChart | src/assets/components/functional/performanceOverview/GoalsOverviews/GoalsOverview.jsx:15-82 | the card first shows all five goals, two achieved and three not |
| GoalsOverview.InitialCounts | src/assets/components/functional/performanceOverview/GoalsOverviews/GoalsOverview.jsx:15-61 | two initial goals are achieved and three are not |
| GoalsOverview.StatusClass | src/assets/components/functional/performanceOverview/GoalsOverviews/GoalsOverview.jsx:110-117 | the class is "status-achieved" exactly for "Achieved", and "status-not" otherwise |
| GoalsOverview.ExportRows | src/assets/components/functional/performanceOverview/GoalsOverviews/GoalsOverview.jsx:132-141 | one record per shown row, in order |
| GoalsOverview.ExportFollowsColumns | src/assets/components/functional/performanceOverview/GoalsOverviews/GoalsOverview.jsx:100-141 | `ExportRecordOf`, one row's export record: it has exactly six entries, the `k`-th being the `k`-th column's field under its header |
| GoalsOverview.ExportRoundTrip | src/assets/components/functional/performanceOverview/GoalsOverviews/GoalsOverview.jsx:132-141 | every shown field reads back from its record; only the id is not exported |
| GoalsOverview.GoalsOverviewState.constructor | src/assets/components/functional/performanceOverview/GoalsOverviews/GoalsOverview.jsx:64-67 | the card starts with the initial goals, "Active", not loading, the form hidden |
| GoalsOverview.GoalsOverviewState.SetFilter | src/assets/components/functional/performanceOverview/GoalsOverviews/GoalsOverview.jsx:165-169 | the filter becomes the picked entry; nothing else changes |
| GoalsOverview.GoalsOverviewState.StartRefresh | src/assets/components/functional/performanceOverview/GoalsOverviews/GoalsOverview.jsx:123-124 | refresh starts loading and resets the filter to "Active", keeping the rows |
| GoalsOverview.GoalsOverviewState.FinishRefresh | src/assets/components/functional/performanceOverview/GoalsOverviews/GoalsOverview.jsx:125-128 | the timer restores the initial goals and ends loading |
| GoalsOverview.GoalsOverviewState.Refresh | src/assets/components/functional/performanceOverview/GoalsOverviews/GoalsOverview.jsx:122-129 | a completed refresh shows the initial goals under "Active", not loading, whatever the state was |
| GoalsOverview.GoalsOverviewState.CloseAddGoal | src/assets/components/functional/performanceOverview/GoalsOverviews/GoalsOverview.jsx:190 | closing the form hides it; nothing else changes |
| AddEditGoal.UpdateEntries | src/assets/components/functional/performanceOverview/GoalsOverviews/AddEditGoal.jsx:22-26 | only the given field of the entry at `index` changes; the length, the other entries and the other field are kept |
| AddEditGoal.UpdateEntriesLaws | src/assets/components/functional/performanceOverview/GoalsOverviews/AddEditGoal.jsx:22-26 | the last write to a field wins, writes to different places commute, and writing the current value changes nothing |
| AddEditGoal.InitialValue | src/assets/components/functional/performanceOverview/GoalsOverviews/AddEditGoal.jsx:6-16 | a field starts as the edited goal's value when that is truthy, and `""` otherwise or without a goal |
| AddEditGoal.Title | src/assets/components/functional/performanceOverview/GoalsOverviews/AddEditGoal.jsx:47 | the title is "Edit Goal" exactly when a goal is being edited, and "Add Goal" otherwise |
| AddEditGoal.Condition.constructor | src/assets/components/functional/performanceOverview/GoalsOverviews/AddEditGoal.jsx:13-19 | a new condition is empty |
| AddEditGoal.GoalForm.constructor | src/assets/components/functional/performanceOverview/GoalsOverviews/AddEditGoal.jsx:5-16 | every field comes from the edited goal or `""`; the metric condition is "Equals" whatever the goal says; there is one empty condition |
| AddEditGoal.GoalForm.AddCondition | src/assets/components/functional/performanceOverview/GoalsOverviews/AddEditGoal.jsx:18-20 | one new empty condition follows the existing ones, which are kept; nothing else changes |
| AddEditGoal.GoalForm.ChangeCondition | src/assets/components/functional/performanceOverview/GoalsOverviews/AddEditGoal.jsx:22-26 | the condition object at `index` is written in place, and the entries change exactly as `UpdateEntries` says |
| AddEditGoal.GoalForm.SetField | src/assets/components/functional/performanceOverview/GoalsOverviews/AddEditGoal.jsx:58-190 | the edited field becomes the entered string; every other field and the conditions are kept |
| AddEditGoal.GoalForm.Submit | src/assets/components/functional/performanceOverview/GoalsOverviews/AddEditGoal.jsx:28-42 | whatever the fields hold, the form calls `onSubmit` with exactly the nine current fields and then `onClose` |
| AddEditGoal.SubmitBlankForm | src/assets/components/functional/performanceOverview/GoalsOverviews/AddEditGoal.jsx:5-42 | a blank new form is submitted without validation: empty required fields, "Equals", one empty condition |
| AddEditGoal.EditAfterSubmit | src/assets/components/functional/performanceOverview/GoalsOverviews/AddEditGoal.jsx:22-36 | the submitted record shares the form's condition objects, so a later edit shows through it |

## Left out

- The network, the access-token store and the caching fetch service are
  not modelled. The token and the outcome of the request are parameters of
  `FetchAggregated`, and the request it would make is its result. The cache
  service's lifetime handling is not part of this model.
- `fetchAggregated` runs again whenever the operator, the region or the
  date range changes. The model has the fetch as a method the caller runs
  after such a change, and does not model the effect scheduling.
- `AggregatedView.AggregatedViewState.FetchAggregated` is one atomic run.
  Overlapping fetches are not modelled. The source can have several
  requests pending, for example after a region change: the last response
  to arrive overwrites `tableData` whatever its filter, and the first
  `finally` to run clears `loading` while others are still pending.
- The date range and `formatDate` are taken as the two formatted date
  strings. A date range without a first entry, which would throw inside
  the request's `try`, is not modelled.
- The response's error text, the console logging and the unused snackbar
  state are left out.
- `AggregatedSort.SortRows`: `Array.prototype.sort` is modelled by an
  insertion sort. Its contract states a permutation with ordered
  neighbours. Stability is not stated, although `Array.prototype.sort` is
  stable. The engine's arrangement of inconsistently-compared rows is not
  stated either.
- `localeCompare` is modelled as comparison by character code. Locale
  collation is not modelled.
- `toLowerCase` and `toUpperCase` map the ASCII letters only.
- Numbers are unbounded integers. Fractional values, `NaN` and JavaScript's
  number formatting of non-integers are not modelled.
- API values are scalars (`JsValue`). Arrays and objects nested in a
  record are not modelled.
- Every element of `aggregated_data` is taken to be an object
  (`ApiRecord`, a map). An element such as `null` makes the source's
  mapping throw a `TypeError` at `item.tag` during rendering. That throw
  is not modelled.
- Callers pass `dynamicHeight = "auto"` for short tables. There
  `Math.min` yields `NaN`, both comparisons are false, and the grid gets
  `autoHeight` false with `overflow` "visible". Only numeric caps are
  modelled, so the scroll lemmas cover the callers' numeric branch only.
- The `handleSort` handler is not attached to any element in this
  component. It is modelled as the handler itself.
- The percent-change cell component, the JSX, the grid's styling, the
  Chart.js doughnut and its options are not modelled. The cell renderer is
  modelled as the choice of cell and the values passed to it.
- The CSV `Blob` download, the XLSX workbook and the file saving are not
  modelled. The model stops at the CSV text and at the records handed to
  the sheet writer.
- The refresh's one-second timer is not modelled as time. Refresh is the
  two state updates, before and after the timer, and their composition.
- The "Add Goal" button has no handler, so `showAddGoal` is never set.
  The form is only closed.
- The parent's `onSubmit` only logs the record, so it is left out.
- `AddEditGoal.GoalForm.constructor`: the form's state is seeded from
  `initialData` on its first render only. A later change of
  `initialData` is not modelled.
- `AddEditGoal.GoalForm.ChangeCondition` requires an index within the
  list. The form only passes the index of a rendered condition, and any
  other index would make the handler throw.
- The product-analytics table is not part of this model. It is a
  debounced fetch with cancellation and static column definitions.
- `AggregatedRows.RenderCell` takes a row field, not a string. The
  renderer is only ever created for a key of `HEADERS`, and each such key
  names a field (`HeadersAreRowFields`). The nine percent-change keys are
  written as the fields they name.
