/**
  The shared data-table wrapper: its props and their defaults, the height it
  computes for its container, the two layout flags derived from that height,
  the synthetic row ids it hands to the grid, and its two pieces of state
  (page size and computed height) with the updates that replace them.
  Only numeric height caps are modelled.
 */
module AdvancedDataTable {
  import opened JsValues

  const RowHeight: int := 52
  const HeaderHeight: int := 56
  /** The toolbar's height when the export button is shown. */
  const ExportToolbarHeight: int := 56
  const Padding: int := 14

  const DefaultDynamicHeight: int := 748
  const DefaultPageSize: int := 10
  const DefaultPageSizeOptions: seq<int> := [10, 25, 50]

  /** The props the component reads, after defaults are applied. */
  datatype Props = Props(
    columns: seq<JsObject>,
    rows: seq<JsObject>,
    loading: bool,
    checkboxSelection: bool,
    hideFooter: bool,
    showExportButton: bool,
    dynamicHeight: int,
    defaultPageSize: int,
    pageSizeOptions: seq<int>)

  /** The props a caller passes; `None` is a prop left `undefined`. */
  datatype GivenProps = GivenProps(
    columns: Option<seq<JsObject>>,
    rows: Option<seq<JsObject>>,
    loading: Option<bool>,
    checkboxSelection: Option<bool>,
    hideFooter: Option<bool>,
    showExportButton: Option<bool>,
    dynamicHeight: Option<int>,
    defaultPageSize: Option<int>,
    pageSizeOptions: Option<seq<int>>)

  const NoProps := GivenProps(None, None, None, None, None, None, None, None, None)

  function Default<T>(given: Option<T>, fallback: T): T {
    if given.Some? then given.value else fallback
  }

  /** Destructuring with default values: a prop that is passed is used, one that is not takes its default. */
  function ResolveProps(given: GivenProps): Props {
    Props(
      Default(given.columns, []),
      Default(given.rows, []),
      Default(given.loading, false),
      Default(given.checkboxSelection, false),
      Default(given.hideFooter, false),
      Default(given.showExportButton, true),
      Default(given.dynamicHeight, DefaultDynamicHeight),
      Default(given.defaultPageSize, DefaultPageSize),
      Default(given.pageSizeOptions, DefaultPageSizeOptions))
  }

  /**
    With nothing passed the table has no columns and no rows, is not loading,
    has no checkboxes, shows its footer and export button, is capped at 748
    pixels, and pages by 10 with options 10, 25 and 50; a prop that is passed
    overrides its default.
   */
  lemma ResolvePropsDefaults(given: GivenProps)
    ensures ResolveProps(NoProps) == Props([], [], false, false, false, true, 748, 10, [10, 25, 50])
    ensures given.columns.Some? ==> ResolveProps(given).columns == given.columns.value
    ensures given.columns.None? ==> ResolveProps(given).columns == []
    ensures given.rows.Some? ==> ResolveProps(given).rows == given.rows.value
    ensures given.rows.None? ==> ResolveProps(given).rows == []
    ensures given.loading.Some? ==> ResolveProps(given).loading == given.loading.value
    ensures given.loading.None? ==> !ResolveProps(given).loading
    ensures given.checkboxSelection.Some? ==> ResolveProps(given).checkboxSelection == given.checkboxSelection.value
    ensures given.checkboxSelection.None? ==> !ResolveProps(given).checkboxSelection
    ensures given.hideFooter.Some? ==> ResolveProps(given).hideFooter == given.hideFooter.value
    ensures given.hideFooter.None? ==> !ResolveProps(given).hideFooter
    ensures given.showExportButton.Some? ==> ResolveProps(given).showExportButton == given.showExportButton.value
    ensures given.showExportButton.None? ==> ResolveProps(given).showExportButton
    ensures given.dynamicHeight.Some? ==> ResolveProps(given).dynamicHeight == given.dynamicHeight.value
    ensures given.dynamicHeight.None? ==> ResolveProps(given).dynamicHeight == 748
    ensures given.defaultPageSize.Some? ==> ResolveProps(given).defaultPageSize == given.defaultPageSize.value
    ensures given.defaultPageSize.None? ==> ResolveProps(given).defaultPageSize == 10
    ensures given.pageSizeOptions.Some? ==> ResolveProps(given).pageSizeOptions == given.pageSizeOptions.value
    ensures given.pageSizeOptions.None? ==> ResolveProps(given).pageSizeOptions == [10, 25, 50]
  {
  }

  // ---------------------------------------------------------------------------
  // Height
  // ---------------------------------------------------------------------------

  /** The height every row, the header, the toolbar (if any) and the padding need together. */
  function ContentHeight(rowCount: nat, showExportButton: bool): int {
    rowCount * RowHeight + HeaderHeight + (if showExportButton then ExportToolbarHeight else 0) + Padding
  }

  /** `Math.min(totalHeight, dynamicHeight)`: the content height, capped. */
  function ComputedHeight(rowCount: nat, showExportButton: bool, cap: int): (h: int)
    ensures h <= cap && h <= ContentHeight(rowCount, showExportButton)
    ensures h == cap || h == ContentHeight(rowCount, showExportButton)
  {
    var total := ContentHeight(rowCount, showExportButton);
    if total < cap then total else cap
  }

  /** The content height grows with the row count, one row height per row. */
  lemma {:induction false} ContentHeightStep(n: nat, showExportButton: bool)
    ensures ContentHeight(n + 1, showExportButton) == ContentHeight(n, showExportButton) + RowHeight
  {
    calc {
      ContentHeight(n + 1, showExportButton);
      (n + 1) * RowHeight + HeaderHeight + (if showExportButton then ExportToolbarHeight else 0) + Padding;
      { assert (n + 1) * RowHeight == n * RowHeight + RowHeight; }
      ContentHeight(n, showExportButton) + RowHeight;
    }
  }

  /** More rows never give a smaller table. */
  lemma {:induction false} ComputedHeightMonotone(n: nat, m: nat, showExportButton: bool, cap: int)
    requires n <= m
    ensures ComputedHeight(n, showExportButton, cap) <= ComputedHeight(m, showExportButton, cap)
    decreases m - n
  {
    if n < m {
      ContentHeightStep(n, showExportButton);
      ComputedHeightMonotone(n + 1, m, showExportButton, cap);
    }
  }

  /** `autoHeight`: the grid sizes itself while the height is below the cap. */
  predicate AutoHeight(height: int, cap: int) {
    height < cap
  }

  /** The box's `overflow`: scrolling once the height has reached the cap. */
  function Overflow(height: int, cap: int): (overflow: string)
    ensures overflow == "auto" || overflow == "visible"
    ensures overflow == "visible" <==> AutoHeight(height, cap)
  {
    if height >= cap then "auto" else "visible"
  }

  /**
    The two flags are complementary: the grid sizes itself exactly when the
    box does not scroll, and that happens exactly when the content fits below
    the cap.
   */
  lemma FlagsComplementary(rowCount: nat, showExportButton: bool, cap: int)
    ensures var h := ComputedHeight(rowCount, showExportButton, cap);
      (AutoHeight(h, cap) <==> Overflow(h, cap) == "visible") &&
      (!AutoHeight(h, cap) <==> Overflow(h, cap) == "auto") &&
      (AutoHeight(h, cap) <==> ContentHeight(rowCount, showExportButton) < cap)
  {
    var h := ComputedHeight(rowCount, showExportButton, cap);
    assert "visible"[0] != "auto"[0];
  }

  /**
    Under the default cap of 748 pixels the grid sizes itself for at most 11
    rows with the export toolbar and at most 13 rows without it.
   */
  lemma DefaultCapRowLimit(rowCount: nat)
    ensures AutoHeight(ComputedHeight(rowCount, true, DefaultDynamicHeight), DefaultDynamicHeight) <==> rowCount <= 11
    ensures AutoHeight(ComputedHeight(rowCount, false, DefaultDynamicHeight), DefaultDynamicHeight) <==> rowCount <= 13
  {
  }

  /**
    The aggregated view caps its table at 300 pixels once it has more than
    four rows, without the export toolbar: such a table always sits at the cap
    and scrolls.
   */
  lemma AggregatedTableScrolls(rowCount: nat)
    requires rowCount > 4
    ensures ComputedHeight(rowCount, false, 300) == 300
    ensures Overflow(ComputedHeight(rowCount, false, 300), 300) == "auto"
  {
    ComputedHeightMonotone(5, rowCount, false, 300);
  }

  /**
    The goals overview caps its table at 330 pixels once it has more than
    five rows, without the export toolbar: such a table always sits at the
    cap and scrolls.
   */
  lemma GoalsTableScrolls(rowCount: nat)
    requires rowCount > 5
    ensures ComputedHeight(rowCount, false, 330) == 330
    ensures Overflow(ComputedHeight(rowCount, false, 330), 330) == "auto"
  {
    ComputedHeightMonotone(6, rowCount, false, 330);
  }

  // ---------------------------------------------------------------------------
  // Row ids
  // ---------------------------------------------------------------------------

  /** `{ id: i + 1, ...row }` for every row: the row's own properties, including its own `id`, win. */
  function AssignIds(rows: seq<JsObject>): (out: seq<JsObject>)
    ensures |out| == |rows|
    ensures forall i :: 0 <= i < |rows| ==> out[i].Keys == rows[i].Keys + {"id"}
    ensures forall i :: 0 <= i < |rows| ==>
      out[i]["id"] == (if "id" in rows[i] then rows[i]["id"] else Num(i + 1))
    ensures forall i, k :: 0 <= i < |rows| && k in rows[i] ==> out[i][k] == rows[i][k]
  {
    seq(|rows|, i requires 0 <= i < |rows| => map["id" := Num(i + 1)] + rows[i])
  }

  /** Rows without ids of their own are numbered 1, 2, 3, … in order, so their ids are distinct. */
  lemma PositionalIdsDistinct(rows: seq<JsObject>)
    requires forall i :: 0 <= i < |rows| ==> "id" !in rows[i]
    ensures forall i :: 0 <= i < |rows| ==> AssignIds(rows)[i]["id"] == Num(i + 1)
    ensures forall i, j :: 0 <= i < j < |rows| ==> AssignIds(rows)[i]["id"] != AssignIds(rows)[j]["id"]
  {
  }

  /** Own ids are not checked against the positional ones: a row with id 2 before an id-less row gives two rows with id 2. */
  lemma OwnIdMayCollide()
    ensures var out := AssignIds([map["id" := Num(2)], map[]]);
      out[0]["id"] == out[1]["id"] == Num(2)
  {
    var empty: JsObject := map[];
    var out := AssignIds([map["id" := Num(2)], empty]);
    assert "id" !in empty;
    assert out[1]["id"] == Num(2);
  }

  // ---------------------------------------------------------------------------
  // Toolbar
  // ---------------------------------------------------------------------------

  /** The toolbar's two buttons: whether CSV export and printing are offered. */
  datatype ToolbarOptions = ToolbarOptions(csvExport: bool, printing: bool)

  /** `CustomToolbar`: CSV export (of all columns) follows `showExportButton`; printing is disabled either way. */
  function Toolbar(showExportButton: bool): (t: ToolbarOptions)
    ensures t.csvExport <==> showExportButton
    ensures !t.printing
  {
    ToolbarOptions(showExportButton, false)
  }

  // ---------------------------------------------------------------------------
  // State
  // ---------------------------------------------------------------------------

  /** The component's state: the page size and the height last computed. */
  datatype TableState = TableState(pageSize: int, calculatedHeight: int)

  /** The first render: the default page size and the cap itself as the height. */
  function InitialState(props: Props): (s: TableState)
    ensures s.pageSize == props.defaultPageSize
    ensures s.calculatedHeight == props.dynamicHeight
  {
    TableState(props.defaultPageSize, props.dynamicHeight)
  }

  /**
    The height effect, run after a render that changed the rows, the cap or
    the toolbar flag. While the container is not mounted it returns early
    and the previous height stays.
   */
  function HeightEffect(s: TableState, props: Props, mounted: bool): (s': TableState)
    ensures s'.pageSize == s.pageSize
    ensures !mounted ==> s' == s
    ensures mounted ==> s'.calculatedHeight == ComputedHeight(|props.rows|, props.showExportButton, props.dynamicHeight)
  {
    if !mounted then s
    else s.(calculatedHeight := ComputedHeight(|props.rows|, props.showExportButton, props.dynamicHeight))
  }

  /** `onPaginationModelChange`: the page size becomes the model's; the height is kept. */
  function PaginationChange(s: TableState, pageSize: int): (s': TableState)
    ensures s'.pageSize == pageSize && s'.calculatedHeight == s.calculatedHeight
  {
    s.(pageSize := pageSize)
  }

  /**
    After the effect has run on a mounted container the height never exceeds
    the cap; running it again changes nothing, and a page-size change in
    between does not disturb it.
   */
  lemma HeightEffectSettles(s: TableState, props: Props, pageSize: int)
    ensures HeightEffect(s, props, true).calculatedHeight <= props.dynamicHeight
    ensures HeightEffect(HeightEffect(s, props, true), props, true) == HeightEffect(s, props, true)
    ensures HeightEffect(PaginationChange(HeightEffect(s, props, true), pageSize), props, true)
         == PaginationChange(HeightEffect(s, props, true), pageSize)
  {
  }

  /**
    On the first render of the default table the height is 748 and the page
    size 10; once mounted with no rows the height shrinks to the empty
    table's 126 pixels, and the grid sizes itself.
   */
  lemma DefaultTableFirstRenders()
    ensures InitialState(ResolveProps(NoProps)) == TableState(10, 748)
    ensures HeightEffect(InitialState(ResolveProps(NoProps)), ResolveProps(NoProps), true) == TableState(10, 126)
    ensures AutoHeight(126, 748) && Overflow(126, 748) == "visible"
  {
  }
}
