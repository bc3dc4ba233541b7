/**
  The rows of the aggregated performance view: how an API record becomes a
  table row, how a row is read by column key, and which cell renderer each
  column uses.
 */
module AggregatedRows {
  import opened JsValues

  /** One element of the response's `aggregated_data` array. */
  type ApiRecord = JsObject

  /** A row of the aggregated table, one field per property the view builds. */
  datatype Row = Row(
    tag: JsValue,
    marketShare: JsValue,
    spends: JsValue,
    spendsChange: JsValue,
    spendShare: JsValue,
    spendShareChange: JsValue,
    sales: JsValue,
    salesChange: JsValue,
    saleShare: JsValue,
    saleShareChange: JsValue,
    clicks: JsValue,
    clicksChange: JsValue,
    orders: JsValue,
    ordersChange: JsValue,
    revenue: JsValue,
    revenueChange: JsValue,
    impressions: JsValue,
    impressionsChange: JsValue,
    impressionsShare: JsValue,
    impressionsShareChange: JsValue,
    avgCpc: JsValue,
    ctrPercent: JsValue)

  /** The fields of a row, one per property the view builds. */
  datatype Field =
    | Tag | MarketShare
    | Spends | SpendsChange | SpendShare | SpendShareChange
    | Sales | SalesChange | SaleShare | SaleShareChange
    | Clicks | ClicksChange | Orders | OrdersChange
    | Revenue | RevenueChange
    | Impressions | ImpressionsChange | ImpressionsShare | ImpressionsShareChange
    | AvgCpc | CtrPercent

  /** The property name of a field. */
  function FieldName(f: Field): string {
    match f
    case Tag => "tag"
    case MarketShare => "marketShare"
    case Spends => "spends"
    case SpendsChange => "spendsChange"
    case SpendShare => "spendShare"
    case SpendShareChange => "spendShareChange"
    case Sales => "sales"
    case SalesChange => "salesChange"
    case SaleShare => "saleShare"
    case SaleShareChange => "saleShareChange"
    case Clicks => "clicks"
    case ClicksChange => "clicksChange"
    case Orders => "orders"
    case OrdersChange => "ordersChange"
    case Revenue => "revenue"
    case RevenueChange => "revenueChange"
    case Impressions => "impressions"
    case ImpressionsChange => "impressionsChange"
    case ImpressionsShare => "impressionsShare"
    case ImpressionsShareChange => "impressionsShareChange"
    case AvgCpc => "avgCpc"
    case CtrPercent => "ctrPercent"
  }

  /** The field a property name denotes, if any. */
  function FieldNamed(key: string): Option<Field> {
    match key
    case "tag" => Some(Tag)
    case "marketShare" => Some(MarketShare)
    case "spends" => Some(Spends)
    case "spendsChange" => Some(SpendsChange)
    case "spendShare" => Some(SpendShare)
    case "spendShareChange" => Some(SpendShareChange)
    case "sales" => Some(Sales)
    case "salesChange" => Some(SalesChange)
    case "saleShare" => Some(SaleShare)
    case "saleShareChange" => Some(SaleShareChange)
    case "clicks" => Some(Clicks)
    case "clicksChange" => Some(ClicksChange)
    case "orders" => Some(Orders)
    case "ordersChange" => Some(OrdersChange)
    case "revenue" => Some(Revenue)
    case "revenueChange" => Some(RevenueChange)
    case "impressions" => Some(Impressions)
    case "impressionsChange" => Some(ImpressionsChange)
    case "impressionsShare" => Some(ImpressionsShare)
    case "impressionsShareChange" => Some(ImpressionsShareChange)
    case "avgCpc" => Some(AvgCpc)
    case "ctrPercent" => Some(CtrPercent)
    case _ => None
  }

  /** Every field is found again under its own name, so no two fields share a name. */
  lemma FieldNamedInverse(f: Field)
    ensures FieldNamed(FieldName(f)) == Some(f)
  {
  }

  /** The value a row holds for a field. */
  function Value(row: Row, f: Field): JsValue {
    match f
    case Tag => row.tag
    case MarketShare => row.marketShare
    case Spends => row.spends
    case SpendsChange => row.spendsChange
    case SpendShare => row.spendShare
    case SpendShareChange => row.spendShareChange
    case Sales => row.sales
    case SalesChange => row.salesChange
    case SaleShare => row.saleShare
    case SaleShareChange => row.saleShareChange
    case Clicks => row.clicks
    case ClicksChange => row.clicksChange
    case Orders => row.orders
    case OrdersChange => row.ordersChange
    case Revenue => row.revenue
    case RevenueChange => row.revenueChange
    case Impressions => row.impressions
    case ImpressionsChange => row.impressionsChange
    case ImpressionsShare => row.impressionsShare
    case ImpressionsShareChange => row.impressionsShareChange
    case AvgCpc => row.avgCpc
    case CtrPercent => row.ctrPercent
  }

  /** `row[key]`: the field named `key`, or `undefined` for a name the row does not have. */
  function Lookup(row: Row, key: string): JsValue {
    match FieldNamed(key)
    case Some(f) => Value(row, f)
    case None => Undefined
  }

  /** Reading a row by a field's name gives that field. */
  lemma LookupByName(row: Row, f: Field)
    ensures Lookup(row, FieldName(f)) == Value(row, f)
  {
    FieldNamedInverse(f);
  }

  /** A column of the view: the row field it shows and its caption (the source's `label`). */
  datatype Header = Header(key: string, caption: string)

  /** The view's columns, in display and export order. */
  const Headers: seq<Header> := [
    Header("tag", "Tag"),
    Header("marketShare", "MarketShare"),
    Header("spends", "Spends"),
    Header("spendShare", "Spend % Share"),
    Header("sales", "Sales"),
    Header("saleShare", "Sale % Share"),
    Header("clicks", "Clicks"),
    Header("orders", "Orders"),
    Header("revenue", "ROAS"),
    Header("impressions", "Total Impressions"),
    Header("impressionsShare", "Impr % Share")
  ]

  // ---------------------------------------------------------------------------
  // Projection of API records
  // ---------------------------------------------------------------------------

  /** One API record as a table row: `item.x || default` for the fields the API provides, constants for the rest. */
  function Project(item: ApiRecord): Row {
    Row(
      tag := Or(Get(item, "tag"), Str("")),
      marketShare := Num(0),
      spends := Or(Get(item, "spends"), Num(0)),
      spendsChange := Or(Get(item, "spends_pct_change"), Num(0)),
      spendShare := Str("0%"),
      spendShareChange := Num(0),
      sales := Or(Get(item, "sales"), Num(0)),
      salesChange := Or(Get(item, "sales_pct_change"), Num(0)),
      saleShare := Str("0%"),
      saleShareChange := Num(0),
      clicks := Or(Get(item, "clicks"), Num(0)),
      clicksChange := Or(Get(item, "clicks_pct_change"), Num(0)),
      orders := Or(Get(item, "orders"), Num(0)),
      ordersChange := Or(Get(item, "orders_pct_change"), Num(0)),
      revenue := Or(Get(item, "roas"), Num(0)),
      revenueChange := Num(0),
      impressions := Or(Get(item, "impressions"), Num(0)),
      impressionsChange := Or(Get(item, "impressions_pct_change"), Num(0)),
      impressionsShare := Str("0%"),
      impressionsShareChange := Num(0),
      avgCpc := Or(Get(item, "avg_cpc"), Num(0)),
      ctrPercent := Or(Get(item, "ctr_percent"), Num(0)))
  }

  /** The memoised `mappedData`: every record projected, in order; no records, no rows. */
  function MapRecords(data: seq<ApiRecord>): (rows: seq<Row>)
    ensures |rows| == |data|
    ensures forall i :: 0 <= i < |data| ==> rows[i] == Project(data[i])
  {
    if |data| == 0 then [] else seq(|data|, i requires 0 <= i < |data| => Project(data[i]))
  }

  /** Where a row field comes from: an API property with its fallback, or a constant the view fills in. */
  datatype FieldSource = FromApi(apiKey: string, fallback: JsValue) | Placeholder(value: JsValue)

  /** The field table of the view, written field by field. */
  function FieldSourceOf(f: Field): FieldSource {
    match f
    case Tag => FromApi("tag", Str(""))
    case MarketShare => Placeholder(Num(0))
    case Spends => FromApi("spends", Num(0))
    case SpendsChange => FromApi("spends_pct_change", Num(0))
    case SpendShare => Placeholder(Str("0%"))
    case SpendShareChange => Placeholder(Num(0))
    case Sales => FromApi("sales", Num(0))
    case SalesChange => FromApi("sales_pct_change", Num(0))
    case SaleShare => Placeholder(Str("0%"))
    case SaleShareChange => Placeholder(Num(0))
    case Clicks => FromApi("clicks", Num(0))
    case ClicksChange => FromApi("clicks_pct_change", Num(0))
    case Orders => FromApi("orders", Num(0))
    case OrdersChange => FromApi("orders_pct_change", Num(0))
    case Revenue => FromApi("roas", Num(0))
    case RevenueChange => Placeholder(Num(0))
    case Impressions => FromApi("impressions", Num(0))
    case ImpressionsChange => FromApi("impressions_pct_change", Num(0))
    case ImpressionsShare => Placeholder(Str("0%"))
    case ImpressionsShareChange => Placeholder(Num(0))
    case AvgCpc => FromApi("avg_cpc", Num(0))
    case CtrPercent => FromApi("ctr_percent", Num(0))
  }

  /**
    Every field of a projected row, read by its name, follows the field
    table: a field read from the API is the record's value when truthy and
    its fallback otherwise, and a placeholder is the same constant whatever
    the record.
   */
  lemma ProjectFollowsFieldTable(item: ApiRecord, f: Field)
    ensures FieldSourceOf(f).FromApi? ==>
      var src := FieldSourceOf(f);
      Lookup(Project(item), FieldName(f)) == (if Truthy(Get(item, src.apiKey)) then item[src.apiKey] else src.fallback)
    ensures FieldSourceOf(f).Placeholder? ==> Lookup(Project(item), FieldName(f)) == FieldSourceOf(f).value
  {
    LookupByName(Project(item), f);
  }

  /** A field whose API property is missing takes its fallback: `""` for the tag, `0` for every number. */
  lemma MissingPropertyTakesFallback(item: ApiRecord, f: Field)
    requires FieldSourceOf(f).FromApi? && FieldSourceOf(f).apiKey !in item
    ensures Lookup(Project(item), FieldName(f)) == (if f == Tag then Str("") else Num(0))
  {
    ProjectFollowsFieldTable(item, f);
  }

  /** Every column of the view is a field of the row. */
  lemma HeadersAreRowFields(i: nat)
    requires i < |Headers|
    ensures FieldNamed(Headers[i].key).Some?
  {
  }

  // ---------------------------------------------------------------------------
  // Cell rendering
  // ---------------------------------------------------------------------------

  /** What a cell shows: the percent-change component, a text, or the raw value. */
  datatype Cell = PercentChange(mainValue: JsValue, percentValue: JsValue) | Text(text: string) | Plain(value: JsValue)

  /** The columns drawn with the percent-change component. */
  const PercentChangeFields: seq<Field> :=
    [Spends, SpendShare, Sales, SaleShare, Clicks, Orders, Revenue, Impressions, ImpressionsShare]

  /**
    `renderCell` of the column `f` for `row`; a column key is always a field
    of the row, and the change is read under the column's name followed by
    "Change".
   */
  function RenderCell(row: Row, f: Field): Cell {
    if f in PercentChangeFields then PercentChange(Value(row, f), Or(Lookup(row, FieldName(f) + "Change"), Num(0)))
    else if f == MarketShare then Text(ToJsString(Value(row, f)) + "%")
    else Plain(Value(row, f))
  }

  /** The change field drawn beside a percent-change column. */
  function ChangeField(f: Field): Option<Field> {
    match f
    case Spends => Some(SpendsChange)
    case SpendShare => Some(SpendShareChange)
    case Sales => Some(SalesChange)
    case SaleShare => Some(SaleShareChange)
    case Clicks => Some(ClicksChange)
    case Orders => Some(OrdersChange)
    case Revenue => Some(RevenueChange)
    case Impressions => Some(ImpressionsChange)
    case ImpressionsShare => Some(ImpressionsShareChange)
    case _ => None
  }

  /** A change field's name is its column's name followed by "Change". */
  lemma ChangeFieldName(f: Field)
    requires ChangeField(f).Some?
    ensures FieldName(f) + "Change" == FieldName(ChangeField(f).value)
  {
    if f == Spends || f == SpendShare || f == Sales {
      SpendAndSaleChangeNames(f);
    } else if f == SaleShare || f == Clicks || f == Orders {
      CountChangeNames(f);
    } else {
      RevenueAndImpressionChangeNames(f);
    }
  }

  // The nine names are split into three groups so that each obligation
  // compares only a few string literals.

  lemma SpendAndSaleChangeNames(f: Field)
    requires f == Spends || f == SpendShare || f == Sales
    ensures FieldName(f) + "Change" == FieldName(ChangeField(f).value)
  {
  }

  lemma CountChangeNames(f: Field)
    requires f == SaleShare || f == Clicks || f == Orders
    ensures FieldName(f) + "Change" == FieldName(ChangeField(f).value)
  {
  }

  lemma RevenueAndImpressionChangeNames(f: Field)
    requires f == Revenue || f == Impressions || f == ImpressionsShare
    ensures FieldName(f) + "Change" == FieldName(ChangeField(f).value)
  {
  }

  /**
    Every percent-change column has a change field, which the cell shows
    beside the column (0 when falsy); market share is followed by "%", and
    the other columns are shown raw.
   */
  lemma RenderField(row: Row, f: Field)
    ensures f in PercentChangeFields <==> ChangeField(f).Some?
    ensures ChangeField(f).Some? ==>
      RenderCell(row, f) == PercentChange(Value(row, f), Or(Value(row, ChangeField(f).value), Num(0)))
    ensures f == MarketShare ==> RenderCell(row, f) == Text(ToJsString(Value(row, f)) + "%")
    ensures ChangeField(f).None? && f != MarketShare ==> RenderCell(row, f) == Plain(Value(row, f))
  {
    if ChangeField(f).Some? {
      ChangeFieldName(f);
      LookupByName(row, ChangeField(f).value);
    }
  }

  /** Spends is shown beside the API's change, ROAS beside a change of 0. */
  lemma RenderProjectedFigures(item: ApiRecord, f: Field)
    requires f == Spends || f == Revenue
    ensures f == Spends ==>
      RenderCell(Project(item), f) == PercentChange(Or(Get(item, "spends"), Num(0)), Or(Get(item, "spends_pct_change"), Num(0)))
    ensures f == Revenue ==> RenderCell(Project(item), f) == PercentChange(Or(Get(item, "roas"), Num(0)), Num(0))
  {
    RenderField(Project(item), f);
  }

  /** The three share columns always show "0%" beside a change of 0. */
  lemma RenderProjectedShares(item: ApiRecord, f: Field)
    requires f == SpendShare || f == SaleShare || f == ImpressionsShare
    ensures RenderCell(Project(item), f) == PercentChange(Str("0%"), Num(0))
  {
    RenderField(Project(item), f);
  }

  /** Market share always reads "0%" and the tag is shown as it is. */
  lemma RenderProjectedText(item: ApiRecord)
    ensures RenderCell(Project(item), MarketShare) == Text("0%")
    ensures RenderCell(Project(item), Tag) == Plain(Or(Get(item, "tag"), Str("")))
  {
    assert ToJsString(Num(0)) == "0" by {
      assert NatToString(0) == "0";
    }
  }

  /**
    On a projected row the cells show the projection's values: exactly the
    percent-change columns use the percent-change cell; spends is shown
    beside the API's change (or 0), the share columns and ROAS always beside
    a change of 0, market share always "0%", and the tag as it is.
   */
  lemma RenderProjectedRow(item: ApiRecord, f: Field)
    ensures var cell := RenderCell(Project(item), f);
      (cell.PercentChange? <==> ChangeField(f).Some?) &&
      (f == Spends ==> cell == PercentChange(Or(Get(item, "spends"), Num(0)), Or(Get(item, "spends_pct_change"), Num(0)))) &&
      (f == Revenue ==> cell == PercentChange(Or(Get(item, "roas"), Num(0)), Num(0))) &&
      (f == SpendShare || f == SaleShare || f == ImpressionsShare ==> cell == PercentChange(Str("0%"), Num(0))) &&
      (f == MarketShare ==> cell == Text("0%")) &&
      (f == Tag ==> cell == Plain(Or(Get(item, "tag"), Str(""))))
  {
    RenderField(Project(item), f);
    RenderProjectedText(item);
    if f == Spends || f == Revenue {
      RenderProjectedFigures(item, f);
    } else if f == SpendShare || f == SaleShare || f == ImpressionsShare {
      RenderProjectedShares(item, f);
    }
  }
}
