/**
  The aggregated performance view as a component: its request (region
  parameter, URL, cache key), and its state (region filter, sort
  configuration, loading flag, fetched records) with the handlers that
  replace it. The network, the access-token store and the cache service are
  parameters: the token and the response arrive as arguments.
 */
module AggregatedView {
  import opened JsValues
  import opened AggregatedRows
  import opened AggregatedSort
  import opened AggregatedCsv

  const Endpoint: string := "https://react-api-script.onrender.com/samsonite/aggregated-view"
  const CachePrefix: string := "cache:GET:"
  /** Five minutes, in milliseconds. */
  const CacheTtlMs: int := 5 * 60 * 1000

  /** The `parameter_filter` sent for a region filter. */
  function RegionParam(region: string): (param: string)
    ensures HasNoUpper(param)
  {
    if region == "Business" then "business"
    else if region == "Targeting" then "targeting"
    else if region == "Ad Type" then "ad_type"
    else ToLower(region)
  }

  /** For every filter but "Ad Type" the parameter is the lower-cased filter. */
  lemma RegionParamIsLowerCase(region: string)
    requires region != "Ad Type"
    ensures RegionParam(region) == ToLower(region)
  {
    if region == "Business" {
      LowerBusiness();
    } else if region == "Targeting" {
      LowerTargeting();
    }
  }

  /** "Ad Type" is sent as "ad_type": its space becomes an underscore, unlike plain lower-casing. */
  lemma AdTypeParam()
    ensures RegionParam("Ad Type") == "ad_type"
    ensures RegionParam("Ad Type") != ToLower("Ad Type")
  {
    LowerAdType();
    assert "ad_type"[2] != "ad type"[2];
  }

  // One lemma per literal keeps each case-mapping obligation small.

  lemma LowerBusiness()
    ensures ToLower("Business") == "business"
  {
  }

  lemma LowerTargeting()
    ensures ToLower("Targeting") == "targeting"
  {
  }

  lemma LowerAdType()
    ensures ToLower("Ad Type") == "ad type"
  {
  }

  /** Mapping a parameter again leaves it as it is. */
  lemma RegionParamIdempotent(region: string)
    ensures RegionParam(RegionParam(region)) == RegionParam(region)
  {
    var p := RegionParam(region);
    assert p != "Business" && p != "Targeting" && p != "Ad Type" by {
      assert |p| == 0 || !('A' <= p[0] <= 'Z');
    }
    ToLowerFixesLower(p);
  }

  /** The request URL for an operator, a formatted date range and a parameter. */
  function AggregatedUrl(operator: string, startDate: string, endDate: string, param: string): (url: string)
    ensures Endpoint <= url
    ensures |param| <= |url| && url[|url| - |param|..] == param
  {
    Endpoint + "?platform=" + operator + "&start_date=" + startDate + "&end_date=" + endDate
      + "&parameter_filter=" + param
  }

  /** The key the response is cached under. */
  function CacheKey(url: string): (key: string)
    ensures CachePrefix <= key && key[|CachePrefix|..] == url
  {
    CachePrefix + url
  }

  /** Equal strings with a common prefix have equal remainders. */
  lemma PrefixCancels(prefix: string, a: string, b: string)
    ensures prefix + a == prefix + b <==> a == b
  {
    if prefix + a == prefix + b {
      assert a == (prefix + a)[|prefix|..];
      assert b == (prefix + b)[|prefix|..];
    }
  }

  /** Distinct URLs never share a cache entry. */
  lemma CacheKeyInjective(url1: string, url2: string)
    ensures CacheKey(url1) == CacheKey(url2) <==> url1 == url2
  {
    PrefixCancels(CachePrefix, url1, url2);
  }

  /**
    For one operator and date range, two region filters share a cache entry
    exactly when they send the same parameter.
   */
  lemma RegionCacheKeys(operator: string, startDate: string, endDate: string, region1: string, region2: string)
    ensures CacheKey(AggregatedUrl(operator, startDate, endDate, RegionParam(region1)))
         == CacheKey(AggregatedUrl(operator, startDate, endDate, RegionParam(region2)))
        <==> RegionParam(region1) == RegionParam(region2)
  {
    var p1, p2 := RegionParam(region1), RegionParam(region2);
    var base := Endpoint + "?platform=" + operator + "&start_date=" + startDate + "&end_date=" + endDate
      + "&parameter_filter=";
    assert AggregatedUrl(operator, startDate, endDate, p1) == base + p1;
    assert AggregatedUrl(operator, startDate, endDate, p2) == base + p2;
    CacheKeyInjective(base + p1, base + p2);
    PrefixCancels(base, p1, p2);
  }

  /** A GET handed to the caching fetch. */
  datatype Request = Request(url: string, cacheKey: string, ttlMs: int, bearerToken: string)

  /** How the fetch ended: it threw, answered with a non-success status, or answered with a body. */
  datatype Response = Failed | NotOk | Ok(aggregatedData: Option<seq<ApiRecord>>)

  /** The records kept from a response: the `aggregated_data` array, or none. */
  function RecordsOf(response: Response): (records: seq<ApiRecord>)
    ensures records != [] ==> response.Ok? && response.aggregatedData == Some(records)
    ensures response.Ok? && response.aggregatedData.Some? ==> records == response.aggregatedData.value
  {
    match response
    case Ok(Some(records)) => records
    case _ => []
  }

  /** Whether a fetch is attempted at all: an operator and a date range are required. */
  predicate CanFetch(operator: Option<string>, dateRange: Option<(string, string)>) {
    operator.Some? && operator.value != "" && dateRange.Some?
  }

  /** The component's state. */
  class AggregatedViewState {
    var regionFilter: string
    var sortConfig: SortConfig
    var loading: bool
    var tableData: seq<ApiRecord>

    /** The first render: "Business", no sort key, not loading, no records. */
    constructor()
      ensures regionFilter == "Business" && sortConfig == InitialSortConfig
      ensures !loading && tableData == []
    {
      regionFilter := "Business";
      sortConfig := InitialSortConfig;
      loading := false;
      tableData := [];
    }

    /** The rows shown before sorting. */
    function MappedData(): seq<Row>
      reads this
    {
      MapRecords(tableData)
    }

    /** `handleSort(key)`. */
    method HandleSort(key: string)
      modifies this
      ensures sortConfig == ToggleSort(old(sortConfig), key)
      ensures regionFilter == old(regionFilter) && loading == old(loading) && tableData == old(tableData)
    {
      sortConfig := ToggleSort(sortConfig, key);
    }

    /** The region drop-down's `onChange`. */
    method SetRegionFilter(region: string)
      modifies this
      ensures regionFilter == region
      ensures sortConfig == old(sortConfig) && loading == old(loading) && tableData == old(tableData)
    {
      regionFilter := region;
    }

    /**
      `fetchAggregated`, run to completion. Without an operator or a date
      range nothing happens. Otherwise loading ends false; without a token no
      request is made and the records are cleared; with one, the request for
      the current region is made and the records become the response's
      `aggregated_data`, or none when the response failed, was not ok or had
      no such array.
     */
    method FetchAggregated(operator: Option<string>, dateRange: Option<(string, string)>,
                           token: Option<string>, response: Response)
      returns (request: Option<Request>)
      modifies this
      ensures !CanFetch(operator, dateRange) ==>
        request.None? && loading == old(loading) && tableData == old(tableData)
      ensures CanFetch(operator, dateRange) ==> !loading
      ensures CanFetch(operator, dateRange) && (token.None? || token.value == "") ==>
        request.None? && tableData == []
      ensures CanFetch(operator, dateRange) && token.Some? && token.value != "" ==>
        var url := AggregatedUrl(operator.value, dateRange.value.0, dateRange.value.1, RegionParam(regionFilter));
        request == Some(Request(url, CacheKey(url), CacheTtlMs, token.value)) &&
        tableData == RecordsOf(response)
      ensures regionFilter == old(regionFilter) && sortConfig == old(sortConfig)
    {
      request := None;
      if !CanFetch(operator, dateRange) {
        return;
      }
      loading := true;
      if token.None? || token.value == "" {
        tableData := [];
      } else {
        var url := AggregatedUrl(operator.value, dateRange.value.0, dateRange.value.1, RegionParam(regionFilter));
        request := Some(Request(url, CacheKey(url), CacheTtlMs, token.value));
        tableData := RecordsOf(response);
      }
      loading := false;
    }

    /**
      `handleExport`: the CSV of the rows as displayed, which are the mapped
      rows in some order, and in their own order while no sort key is set.
     */
    method Export() returns (shown: seq<Row>, csv: string)
      ensures multiset(shown) == multiset(MappedData())
      ensures !SortsBy(sortConfig) ==> shown == MappedData()
      ensures SortsBy(sortConfig) ==> AdjacentSorted(shown, sortConfig.key.value, sortConfig.direction)
      ensures csv == ExportCsv(shown)
    {
      shown := DisplayRows(MappedData(), sortConfig);
      csv := ExportCsv(shown);
    }
  }
}
