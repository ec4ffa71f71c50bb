/**
 * `FinancialTools`: the agent-facing financial tools over `FinancialService`.
 * Each tool returns the structured value the source serialises with
 * `json.dumps`; Decimal amounts are cents, and float averages are not part of
 * these values.
 */
module FinancialTools {
  import opened Wrappers
  import opened Json
  import opened Text
  import opened Lists
  import opened FinancialModels
  import opened FinancialService

  function Revenue(r: SalesReport): int { r.revenue }

  function ProfitMargin(r: SalesReport): int { r.profitMargin }

  function UnitsSold(r: SalesReport): int { r.unitsSold }

  // ---------------------------------------------------------------------------
  // search_sales_data

  /** The lower-cased query occurs in the product name, category, region or sales rep, lower-cased. */
  predicate MatchesQuery(query: string, report: SalesReport) {
    var q := Lower(query);
    || Contains(Lower(report.productName), q)
    || Contains(Lower(report.category), q)
    || Contains(Lower(report.region), q)
    || Contains(Lower(report.salesRep), q)
  }

  function QueryTest(query: string): SalesReport -> bool {
    r => MatchesQuery(query, r)
  }

  /** The reports a search keeps. */
  function SalesMatches(query: string, dateRange: Option<string>, category: Option<string>): seq<SalesReport> {
    Filter(GetSalesReports(dateRange, category), QueryTest(query))
  }

  datatype SalesSearch = SalesSearch(
    query: string,
    dateRange: Option<string>,
    category: Option<string>,
    totalResults: nat,
    totalRevenue: int,
    results: seq<SalesReport>)

  /** `search_sales_data`: the filtering loop over the service's reports. */
  method SearchSalesData(query: string, dateRange: Option<string>, category: Option<string>) returns (search: SalesSearch)
    ensures search.results == SalesMatches(query, dateRange, category)
    ensures search.query == query && search.dateRange == dateRange && search.category == category
    ensures search.totalResults == |search.results|
    ensures search.totalRevenue == Sum(search.results, Revenue)
  {
    var filtered := KeepMatching(query, GetSalesReports(dateRange, category));
    search := SalesSearch(query, dateRange, category, |filtered|, Sum(filtered, Revenue), filtered);
  }

  /** The loop of `search_sales_data`: appends, in order, every report that matches the query. */
  method KeepMatching(query: string, reports: seq<SalesReport>) returns (filtered: seq<SalesReport>)
    ensures filtered == Filter(reports, QueryTest(query))
  {
    filtered := [];
    var i := 0;
    while i < |reports|
      invariant 0 <= i <= |reports|
      invariant filtered == Filter(reports[..i], QueryTest(query))
    {
      var report := reports[i];
      if MatchesQuery(query, report) {
        filtered := filtered + [report];
      }
      FilterAppend(reports[..i], [report], QueryTest(query));
      assert reports[..i + 1] == reports[..i] + [report];
      i := i + 1;
    }
    assert reports[..i] == reports;
  }

  /**
   * Over any dataset, the query filter after the category filter keeps, in
   * order, exactly the reports of the category that match the query, and the
   * empty query keeps all of them.
   */
  lemma QuerySelection(data: seq<SalesReport>, query: string, category: Option<string>)
    ensures IsSubsequence(Filter(ByCategory(data, category), QueryTest(query)), data)
    ensures forall r :: r in Filter(ByCategory(data, category), QueryTest(query)) <==>
      r in data && (Given(category) ==> SameFolded(r.category, category.value)) && MatchesQuery(query, r)
    ensures query == "" ==> Filter(ByCategory(data, category), QueryTest(query)) == ByCategory(data, category)
  {
    var reports := ByCategory(data, category);
    ByCategorySelection(data, category);
    FilterIsSubsequence(reports, QueryTest(query));
    SubsequenceTransitive(Filter(reports, QueryTest(query)), reports, data);
    FilterMembers(reports, QueryTest(query));
    if query == "" {
      assert forall i :: 0 <= i < |reports| ==> Contains(Lower(reports[i].productName), Lower(query));
      FilterAllOrNone(reports, QueryTest(query));
    }
  }

  /**
   * A search keeps, in dataset order, exactly the reports of the requested
   * category (any, without one) that match the query; the empty query matches
   * every report.
   */
  lemma SalesSearchSelection(query: string, dateRange: Option<string>, category: Option<string>)
    ensures IsSubsequence(SalesMatches(query, dateRange, category), SalesData)
    ensures forall r :: r in SalesMatches(query, dateRange, category) <==>
      r in SalesData && (Given(category) ==> SameFolded(r.category, category.value)) && MatchesQuery(query, r)
    ensures query == "" ==> SalesMatches(query, dateRange, category) == GetSalesReports(dateRange, category)
  {
    QuerySelection(SalesData, query, category);
  }

  // ---------------------------------------------------------------------------
  // analyze_revenue_trends

  const DefaultTrendMetrics: seq<string> := ["growth_rate", "recurring_revenue"]

  function RevenueAmount(r: RevenueData): int { r.revenue }

  datatype RevenueTrends = RevenueTrends(
    analysisPeriod: string,
    metricsAnalyzed: seq<string>,
    totalPeriods: nat,
    revenueData: seq<RevenueData>,
    trendAnalysis: Json,
    totalRevenue: int)

  /** `analyze_revenue_trends`: the period is handed to the service's period filter. */
  function AnalyzeRevenueTrends(period: string, metrics: Option<seq<string>>): RevenueTrends {
    var rows := GetRevenueData(Some(period));
    RevenueTrends(
      period,
      if metrics.None? then DefaultTrendMetrics else metrics.value,
      |rows|,
      rows,
      AnalyzeTrends("sales", "6months"),
      Sum(rows, RevenueAmount))
  }

  /**
   * The report counts the rows it lists, which are the rows whose period
   * contains the requested one; the metrics default only when none are given
   * (an empty list is kept); the trend is always the sales trend.
   */
  lemma RevenueTrendsReport(period: string, metrics: Option<seq<string>>)
    ensures var r := AnalyzeRevenueTrends(period, metrics);
      && r.totalPeriods == |r.revenueData|
      && IsSubsequence(r.revenueData, RevenueRows)
      && (forall row :: row in r.revenueData <==>
            row in RevenueRows && (period != "" ==> Contains(Lower(row.period), Lower(period))))
      && (metrics.None? ==> r.metricsAnalyzed == DefaultTrendMetrics)
      && (metrics.Some? ==> r.metricsAnalyzed == metrics.value)
      && r.trendAnalysis == SalesTrend
  {
    RevenueDataFilter(Some(period));
  }

  /** A lower-case word whose first letter occurs in no period selects no revenue row. */
  lemma RevenueForAbsentLetter(word: string)
    requires word != [] && Lower(word) == word
    requires forall i :: 0 <= i < |RevenueRows| ==> word[0] !in Lower(RevenueRows[i].period)
    ensures GetRevenueData(Some(word)) == []
  {
    forall i | 0 <= i < |RevenueRows| ensures !Contains(Lower(RevenueRows[i].period), Lower(word)) {
      NotContainsHead(Lower(RevenueRows[i].period), word);
    }
    FilterAllOrNone(RevenueRows, (r: RevenueData) => Contains(Lower(r.period), Lower(word)));
  }

  /** The granularities the tool documents, "monthly", "quarterly" and "yearly", select no revenue row. */
  lemma DocumentedGranularitiesFindNothing(period: string, metrics: Option<seq<string>>)
    requires period == "monthly" || period == "quarterly" || period == "yearly"
    ensures AnalyzeRevenueTrends(period, metrics).totalPeriods == 0
    ensures AnalyzeRevenueTrends(period, metrics).totalRevenue == 0
  {
    LoweredPeriods();
    if period == "quarterly" {
      RevenueForGranularity();
    } else {
      RevenueForAbsentLetter(period);
    }
  }

  // ---------------------------------------------------------------------------
  // calculate_business_metrics

  function MetricName(m: FinancialMetrics): string { m.metricName }

  /** `m["benchmark"] and m["value"] > m["benchmark"]`: a zero benchmark is serialised as `None`. */
  predicate AboveBenchmark(m: FinancialMetrics) {
    m.benchmark.Some? && m.benchmark.value != 0 && m.value > m.benchmark.value
  }

  predicate PositiveTrend(m: FinancialMetrics) {
    m.trend == Up || m.trend == Stable
  }

  predicate DownTrend(m: FinancialMetrics) {
    m.trend == Down
  }

  datatype BusinessMetrics = BusinessMetrics(
    requestedMetrics: seq<string>,
    calculationPeriod: string,
    totalMetrics: nat,
    metrics: seq<FinancialMetrics>,
    aboveBenchmark: nat,
    positiveTrends: nat,
    areasForImprovement: seq<string>)

  /** `calculate_business_metrics` */
  function CalculateBusinessMetrics(metricNames: seq<string>, period: string): BusinessMetrics {
    var ms := SelectedMetrics(metricNames, Some(period));
    BusinessMetrics(
      metricNames, period, |ms|, ms,
      Count(ms, AboveBenchmark), Count(ms, PositiveTrend),
      KeyList(Filter(ms, DownTrend), MetricName))
  }

  /** Which of three optional values pass a test, in order. */
  lemma FilterChosen<T>(x: T, y: T, z: T, a: bool, b: bool, c: bool, p: T -> bool)
    ensures Filter(Optional(a, x) + Optional(b, y) + Optional(c, z), p)
      == Optional(a && p(x), x) + Optional(b && p(y), y) + Optional(c && p(z), z)
  {
    FilterAppend(Optional(a, x) + Optional(b, y), Optional(c, z), p);
    FilterAppend(Optional(a, x), Optional(b, y), p);
    FilterOptional(a, x, p);
    FilterOptional(b, y, p);
    FilterOptional(c, z, p);
  }

  lemma FilterOptional<T>(a: bool, x: T, p: T -> bool)
    ensures Filter(Optional(a, x), p) == Optional(a && p(x), x)
  {
    if a {
      assert Optional(a, x)[1..] == [];
    }
  }

  /**
   * The performance summary of the computable metrics: only acquisition cost
   * trends down, so it alone is listed for improvement; growth and margin beat
   * their benchmarks; every metric either trends positively or is listed.
   */
  lemma BusinessMetricsSummary(metricNames: seq<string>, period: string)
    ensures var r := CalculateBusinessMetrics(metricNames, period);
      && r.totalMetrics == |r.metrics| <= 3
      && r.areasForImprovement ==
           (if "customer_acquisition_cost" in metricNames then ["Customer Acquisition Cost"] else [])
      && r.aboveBenchmark ==
           (if "revenue_growth_rate" in metricNames then 1 else 0) + (if "profit_margin" in metricNames then 1 else 0)
      && r.positiveTrends + |r.areasForImprovement| == r.totalMetrics
  {
    var p := PeriodOr(Some(period));
    SelectionByKey(metricNames, Some(period));
    ChosenSummary(AcquisitionCostMetric(p), GrowthRateMetric(p), ProfitMarginMetric(p),
      "customer_acquisition_cost" in metricNames, "revenue_growth_rate" in metricNames, "profit_margin" in metricNames);
  }

  /**
   * The summary figures of three optional metrics of which only the first
   * trends down and only the other two beat their benchmarks.
   */
  lemma ChosenSummary(x: FinancialMetrics, y: FinancialMetrics, z: FinancialMetrics, a: bool, b: bool, c: bool)
    requires DownTrend(x) && !DownTrend(y) && !DownTrend(z)
    requires !AboveBenchmark(x) && AboveBenchmark(y) && AboveBenchmark(z)
    requires !PositiveTrend(x) && PositiveTrend(y) && PositiveTrend(z)
    ensures var ms := Optional(a, x) + Optional(b, y) + Optional(c, z);
      && |ms| <= 3
      && KeyList(Filter(ms, DownTrend), MetricName) == (if a then [x.metricName] else [])
      && Count(ms, AboveBenchmark) == (if b then 1 else 0) + (if c then 1 else 0)
      && Count(ms, PositiveTrend) + |KeyList(Filter(ms, DownTrend), MetricName)| == |ms|
  {
    FilterChosen(x, y, z, a, b, c, DownTrend);
    FilterChosen(x, y, z, a, b, c, AboveBenchmark);
    FilterChosen(x, y, z, a, b, c, PositiveTrend);
  }

  // ---------------------------------------------------------------------------
  // get_top_performing_products

  /** The sort key for a performance metric; any other metric sorts by revenue. */
  function SortKey(metric: string): SalesReport -> int {
    if metric == "profit_margin" then ProfitMargin
    else if metric == "units_sold" then UnitsSold
    else Revenue
  }

  /** The reports ranked by `metric`, best first. */
  function SortedProducts(timePeriod: string, metric: string): seq<SalesReport> {
    SortDesc(GetSalesReports(Some(timePeriod), None), SortKey(metric))
  }

  /** `sorted_products[:limit]` */
  function TopList(timePeriod: string, metric: string, limit: int): seq<SalesReport> {
    Take(SortedProducts(timePeriod, metric), limit)
  }

  datatype RankedProduct = RankedProduct(rank: nat, product: SalesReport)

  datatype TopProducts = TopProducts(
    timePeriod: string,
    metric: string,
    limit: int,
    totalAnalyzed: nat,
    top: seq<RankedProduct>,
    topRevenue: int,
    totalUnits: int)

  /** `enumerate(top_products, 1)`: ranks from 1 in list order. */
  method RankProducts(products: seq<SalesReport>) returns (ranked: seq<RankedProduct>)
    ensures |ranked| == |products|
    ensures forall i :: 0 <= i < |products| ==> ranked[i] == RankedProduct(i + 1, products[i])
  {
    ranked := [];
    for i := 0 to |products|
      invariant |ranked| == i
      invariant forall j :: 0 <= j < i ==> ranked[j] == RankedProduct(j + 1, products[j])
    {
      ranked := ranked + [RankedProduct(i + 1, products[i])];
    }
  }

  /** `get_top_performing_products` */
  method GetTopPerformingProducts(timePeriod: string, metric: string, limit: int) returns (r: TopProducts)
    ensures r.timePeriod == timePeriod && r.metric == metric && r.limit == limit
    ensures r.totalAnalyzed == |SalesData|
    ensures |r.top| == |TopList(timePeriod, metric, limit)|
    ensures forall i :: 0 <= i < |r.top| ==> r.top[i] == RankedProduct(i + 1, TopList(timePeriod, metric, limit)[i])
    ensures r.topRevenue == if r.top == [] then 0 else r.top[0].product.revenue
    ensures r.totalUnits == Sum(TopList(timePeriod, metric, limit), UnitsSold)
  {
    var reports := GetSalesReports(Some(timePeriod), None);
    var top := Take(SortDesc(reports, SortKey(metric)), limit);
    var ranked := RankProducts(top);
    r := TopProducts(
      timePeriod, metric, limit, |reports|, ranked,
      if ranked == [] then 0 else ranked[0].product.revenue,
      Sum(top, UnitsSold));
  }

  /**
   * The top list is the first `limit` reports of a stable descending sort of
   * all five reports by the metric's key: `min(limit, 5)` of them for a
   * non-negative limit, none of the reports left out beats one kept, and
   * reports of equal key keep their dataset order.
   */
  lemma TopProductsRanking(timePeriod: string, metric: string, limit: int)
    ensures var key, sorted, top := SortKey(metric), SortedProducts(timePeriod, metric), TopList(timePeriod, metric, limit);
      && top == sorted[..|top|]
      && (0 <= limit ==> |top| == Min(limit, |SalesData|))
      && multiset(sorted) == multiset(SalesData)
      && Descending(sorted, key)
      && (forall i, j :: 0 <= i < |top| <= j < |sorted| ==> key(sorted[i]) >= key(sorted[j]))
      && (forall k :: WithKey(sorted, key, k) == WithKey(SalesData, key, k))
  {
    SortDescCorrect(SalesData, SortKey(metric));
  }

  /** Any metric other than margin and units ranks by revenue. */
  lemma SortKeyFallback(metric: string, report: SalesReport)
    ensures metric != "profit_margin" && metric != "units_sold" ==> SortKey(metric)(report) == report.revenue
    ensures metric == "profit_margin" ==> SortKey(metric)(report) == report.profitMargin
    ensures metric == "units_sold" ==> SortKey(metric)(report) == report.unitsSold
  {
  }

  /** Ranked by revenue with room for one product, the first is the highest revenue of all reports. */
  lemma TopRevenueIsMaximum(timePeriod: string, metric: string, limit: int)
    requires metric != "profit_margin" && metric != "units_sold"
    requires limit != 0 && limit > -|SalesData|
    ensures var top := TopList(timePeriod, metric, limit);
      top != [] && forall s :: s in SalesData ==> top[0].revenue >= s.revenue
  {
    var reports := GetSalesReports(Some(timePeriod), None);
    SalesReportsFilter(Some(timePeriod), None, None);
    SortDescHead(reports, SortKey(metric));
    var sorted := SortedProducts(timePeriod, metric);
    var top := TopList(timePeriod, metric, limit);
    assert |sorted| == |reports| by { SortDescCorrect(reports, SortKey(metric)); assert |multiset(sorted)| == |multiset(reports)|; }
    assert top != [] && top[0] == sorted[0];
    forall s | s in SalesData ensures top[0].revenue >= s.revenue {
      assert SortKey(metric)(s) == s.revenue && SortKey(metric)(sorted[0]) == sorted[0].revenue;
    }
  }

  // ---------------------------------------------------------------------------
  // analyze_customer_metrics

  function SegmentOf(c: CustomerData): string { c.segment }

  function ChurnRisk(c: CustomerData): string { c.churnRisk }

  function AcquisitionCost(c: CustomerData): int { c.acquisitionCost }

  function LifetimeValue(c: CustomerData): int { c.lifetimeValue }

  function AvgOrderValue(c: CustomerData): int { c.avgOrderValue }

  function TotalOrders(c: CustomerData): int { c.totalOrders }

  /** The acquisition figures of one segment; the source's average is `totalCost / customerCount`. */
  datatype SegmentCac = SegmentCac(customerCount: nat, totalCost: int)

  /** The running totals the segmentation keeps per segment; its averages divide them by `count`. */
  datatype SegmentTotals = SegmentTotals(count: nat, totalLtv: int, orderValueSum: int, totalOrders: int)

  datatype CustomerAnalysis =
    | AcquisitionAnalysis(averageCac: int, totalCustomers: nat, bySegment: map<string, SegmentCac>)
    | LifetimeValueAnalysis(totalCustomers: nat, totalLtv: int, highValue: nat, mediumValue: nat, lowValue: nat)
    | ChurnAnalysis(totalCustomers: nat, distribution: map<string, nat>, atRisk: nat)
    | SegmentationAnalysis(totalCustomers: nat, segments: map<string, SegmentTotals>, segmentOrder: seq<string>)

  datatype CustomerReport = CustomerReport(
    analysisType: string,
    segmentFilter: Option<string>,
    includePredictions: bool,
    analysis: CustomerAnalysis,
    recommendations: seq<string>)

  const CustomerRecommendations: seq<string> := [
    "Focus retention efforts on high-risk customers",
    "Optimize acquisition channels for best ROI",
    "Develop targeted campaigns for each segment"
  ]

  /** Dividing the lifetime-value sum of no customers by their number fails. */
  const DivisionByZero: string := "division by zero"

  /** Lifetime value above 50000.00 */
  predicate HighValue(c: CustomerData) { c.lifetimeValue > 5000000 }

  predicate MediumValue(c: CustomerData) { 1000000 <= c.lifetimeValue <= 5000000 }

  predicate LowValue(c: CustomerData) { c.lifetimeValue < 1000000 }

  function CacBySegment(customers: seq<CustomerData>): map<string, SegmentCac> {
    map s | s in KeyList(customers, SegmentOf) ::
      SegmentCac(KeyCount(customers, SegmentOf, s), Sum(WithKey(customers, SegmentOf, s), AcquisitionCost))
  }

  /** The one metric the acquisition analysis asks the service for. */
  const AcquisitionKeys: seq<string> := ["customer_acquisition_cost"]

  const RiskLevels: seq<string> := ["low", "medium", "high"]

  function ChurnTable(customers: seq<CustomerData>): map<string, nat> {
    map level | level in RiskLevels :: KeyCount(customers, ChurnRisk, level)
  }

  function GroupTotals(group: seq<CustomerData>): SegmentTotals {
    SegmentTotals(|group|, Sum(group, LifetimeValue), Sum(group, AvgOrderValue), Sum(group, TotalOrders))
  }

  /** The segmentation table: per segment present, the totals of its customers. */
  function SegmentTable(customers: seq<CustomerData>): map<string, SegmentTotals> {
    map s | s in KeysInOrder(customers, SegmentOf) :: GroupTotals(WithKey(customers, SegmentOf, s))
  }

  /** The analysis of `analysis_type` over `customers`; any unknown type is a segmentation. */
  function Analysis(analysisType: string, customers: seq<CustomerData>): Result<CustomerAnalysis, string> {
    if analysisType == "acquisition_cost" then
      var ms := SelectedMetrics(AcquisitionKeys, None);
      Ok(AcquisitionAnalysis(if ms != [] then ms[0].value else 0, |customers|, CacBySegment(customers)))
    else if analysisType == "lifetime_value" then
      if customers == [] then Err(DivisionByZero)
      else Ok(LifetimeValueAnalysis(
        |customers|, Sum(customers, LifetimeValue),
        Count(customers, HighValue), Count(customers, MediumValue), Count(customers, LowValue)))
    else if analysisType == "churn_analysis" then
      var table := ChurnTable(customers);
      Ok(ChurnAnalysis(|customers|, table, table["high"] + table["medium"]))
    else
      Ok(SegmentationAnalysis(|customers|, SegmentTable(customers), KeysInOrder(customers, SegmentOf)))
  }

  function CustomerMetrics(analysisType: string, segment: Option<string>, includePredictions: bool): Result<CustomerReport, string> {
    match Analysis(analysisType, GetCustomerData(segment))
    case Err(e) => Err(e)
    case Ok(a) => Ok(CustomerReport(analysisType, segment, includePredictions, a, CustomerRecommendations))
  }

  /** The churn loop: one count per risk level. */
  method ChurnDistribution(customers: seq<CustomerData>) returns (distribution: map<string, nat>)
    ensures distribution == ChurnTable(customers)
  {
    distribution := map[];
    for i := 0 to |RiskLevels|
      invariant distribution.Keys == set j | 0 <= j < i :: RiskLevels[j]
      invariant forall level :: level in distribution ==> distribution[level] == KeyCount(customers, ChurnRisk, level)
    {
      distribution := distribution[RiskLevels[i] := KeyCount(customers, ChurnRisk, RiskLevels[i])];
    }
    assert distribution.Keys == ChurnTable(customers).Keys;
  }

  function AddCustomer(t: SegmentTotals, c: CustomerData): SegmentTotals {
    SegmentTotals(t.count + 1, t.totalLtv + c.lifetimeValue, t.orderValueSum + c.avgOrderValue, t.totalOrders + c.totalOrders)
  }

  lemma GroupTotalsAppend(group: seq<CustomerData>, c: CustomerData)
    ensures GroupTotals(group + [c]) == AddCustomer(GroupTotals(group), c)
  {
    SumAppend(group, [c], LifetimeValue);
    SumAppend(group, [c], AvgOrderValue);
    SumAppend(group, [c], TotalOrders);
  }

  /** One more customer updates its own segment's totals, opening the segment if it is new. */
  lemma SegmentTableStep(prefix: seq<CustomerData>, c: CustomerData)
    ensures var t := SegmentTable(prefix);
      var before := if c.segment in t then t[c.segment] else SegmentTotals(0, 0, 0, 0);
      SegmentTable(prefix + [c]) == t[c.segment := AddCustomer(before, c)]
    ensures KeysInOrder(prefix + [c], SegmentOf) ==
      var ks := KeysInOrder(prefix, SegmentOf);
      if c.segment in ks then ks else ks + [c.segment]
  {
    var xs := prefix + [c];
    assert xs[..|xs| - 1] == prefix;
    var t := SegmentTable(prefix);
    var before := if c.segment in t then t[c.segment] else SegmentTotals(0, 0, 0, 0);
    var expected := t[c.segment := AddCustomer(before, c)];
    forall s | s in KeysInOrder(xs, SegmentOf)
      ensures GroupTotals(WithKey(xs, SegmentOf, s)) == expected[s]
    {
      WithKeyAppend(prefix, [c], SegmentOf, s);
      assert WithKey([c], SegmentOf, s) == if c.segment == s then [c] else [];
      if s == c.segment {
        GroupTotalsAppend(WithKey(prefix, SegmentOf, s), c);
        if s !in KeysInOrder(prefix, SegmentOf) {
          KeyCountUnlisted(prefix, SegmentOf, s);
        }
      } else {
        assert WithKey(prefix, SegmentOf, s) + [] == WithKey(prefix, SegmentOf, s);
      }
    }
    assert SegmentTable(xs).Keys == expected.Keys;
  }

  /** The body of the segmentation loop keeps the table and the order in step with the customers seen. */
  lemma SegmentLoopStep(customers: seq<CustomerData>, i: nat, segments: map<string, SegmentTotals>, order: seq<string>)
    requires i < |customers|
    requires segments == SegmentTable(customers[..i])
    requires order == KeysInOrder(customers[..i], SegmentOf)
    ensures var c := customers[i];
      var started := if c.segment !in segments then segments[c.segment := SegmentTotals(0, 0, 0, 0)] else segments;
      && started[c.segment := AddCustomer(started[c.segment], c)] == SegmentTable(customers[..i + 1])
      && (if c.segment !in segments then order + [c.segment] else order) == KeysInOrder(customers[..i + 1], SegmentOf)
  {
    var c := customers[i];
    SegmentTableStep(customers[..i], c);
    assert customers[..i + 1] == customers[..i] + [c];
  }

  /** The segmentation loop, accumulating one customer at a time. */
  method SegmentCustomers(customers: seq<CustomerData>) returns (segments: map<string, SegmentTotals>, order: seq<string>)
    ensures segments == SegmentTable(customers)
    ensures order == KeysInOrder(customers, SegmentOf)
  {
    segments := map[];
    order := [];
    for i := 0 to |customers|
      invariant segments == SegmentTable(customers[..i])
      invariant order == KeysInOrder(customers[..i], SegmentOf)
    {
      var c := customers[i];
      SegmentLoopStep(customers, i, segments, order);
      if c.segment !in segments {
        segments := segments[c.segment := SegmentTotals(0, 0, 0, 0)];
        order := order + [c.segment];
      }
      var t := segments[c.segment];
      segments := segments[c.segment := AddCustomer(t, c)];
    }
    assert customers[..|customers|] == customers;
  }

  /** The body of `analyze_customer_metrics` after the customers are fetched. */
  method AnalyzeCustomers(analysisType: string, customers: seq<CustomerData>) returns (r: Result<CustomerAnalysis, string>)
    ensures r == Analysis(analysisType, customers)
  {
    if analysisType == "acquisition_cost" {
      var metrics := CalculateFinancialMetrics(AcquisitionKeys, None);
      var averageCac := if metrics != [] then metrics[0].value else 0;
      r := Ok(AcquisitionAnalysis(averageCac, |customers|, CacBySegment(customers)));
    } else if analysisType == "lifetime_value" {
      if customers == [] {
        return Err(DivisionByZero);
      }
      r := Ok(LifetimeValueAnalysis(
        |customers|, Sum(customers, LifetimeValue),
        Count(customers, HighValue), Count(customers, MediumValue), Count(customers, LowValue)));
    } else if analysisType == "churn_analysis" {
      var distribution := ChurnDistribution(customers);
      r := Ok(ChurnAnalysis(|customers|, distribution, distribution["high"] + distribution["medium"]));
    } else {
      var segments, order := SegmentCustomers(customers);
      r := Ok(SegmentationAnalysis(|customers|, segments, order));
    }
  }

  /** `analyze_customer_metrics` */
  method AnalyzeCustomerMetrics(analysisType: string, segment: Option<string>, includePredictions: bool)
    returns (report: Result<CustomerReport, string>)
    ensures report == CustomerMetrics(analysisType, segment, includePredictions)
  {
    var customers := GetCustomerData(segment);
    var analysis := AnalyzeCustomers(analysisType, customers);
    match analysis {
      case Err(e) => report := Err(e);
      case Ok(a) => report := Ok(CustomerReport(analysisType, segment, includePredictions, a, CustomerRecommendations));
    }
  }

  /** The high, medium and low lifetime-value buckets split the customers; no customers is a division by zero. */
  lemma LifetimeValueBuckets(customers: seq<CustomerData>)
    ensures var r := Analysis("lifetime_value", customers);
      && (customers == [] <==> r == Err(DivisionByZero))
      && (r.Ok? ==>
            var a := r.value;
            && a.LifetimeValueAnalysis? && a.totalCustomers == |customers|
            && a.highValue + a.mediumValue + a.lowValue == a.totalCustomers)
  {
    var cs := customers;
    CountPartition(cs, HighValue, MediumValue, LowValue);
  }

  /**
   * The churn distribution counts exactly the three known risk levels;
   * customers at risk are the high and medium ones, and together with the
   * low-risk ones they are never more than all customers, and exactly all of
   * them when every risk is one of the three.
   */
  lemma ChurnCounts(customers: seq<CustomerData>)
    ensures var r := Analysis("churn_analysis", customers);
      && r.Ok? && r.value.ChurnAnalysis?
      && var a := r.value;
      && a.totalCustomers == |customers|
      && a.distribution.Keys == {"low", "medium", "high"}
      && a.atRisk == a.distribution["high"] + a.distribution["medium"]
      && a.distribution["low"] + a.atRisk <= a.totalCustomers
      && ((forall i :: 0 <= i < |customers| ==> customers[i].churnRisk in RiskLevels) ==>
            a.distribution["low"] + a.atRisk == a.totalCustomers)
  {
    var cs := customers;
    var low, medium, high := HasKey(ChurnRisk, "low"), HasKey(ChurnRisk, "medium"), HasKey(ChurnRisk, "high");
    CountPartition(cs, low, medium, high);
    if forall i :: 0 <= i < |cs| ==> cs[i].churnRisk in RiskLevels {
      forall i | 0 <= i < |cs| ensures low(cs[i]) || medium(cs[i]) || high(cs[i]) {
        assert cs[i].churnRisk in RiskLevels;
        assert cs[i].churnRisk == RiskLevels[0] || cs[i].churnRisk == RiskLevels[1] || cs[i].churnRisk == RiskLevels[2];
        assert low(cs[i]) == (ChurnRisk(cs[i]) == "low");
        assert medium(cs[i]) == (ChurnRisk(cs[i]) == "medium");
        assert high(cs[i]) == (ChurnRisk(cs[i]) == "high");
      }
    }
    var table := ChurnTable(cs);
    assert table.Keys == {"low", "medium", "high"};
    assert table["low"] == Count(cs, low) && table["medium"] == Count(cs, medium) && table["high"] == Count(cs, high);
  }

  /**
   * The segmentation has an entry exactly for each segment present, listed
   * once each in first-seen order, every entry counts at least one customer,
   * and the per-segment counts add up to the number of customers.
   */
  lemma SegmentationCounts(customers: seq<CustomerData>)
    ensures var t, order := SegmentTable(customers), KeysInOrder(customers, SegmentOf);
      && (forall s :: s in t <==> s in KeyList(customers, SegmentOf))
      && (forall s :: s in t <==> s in order)
      && Distinct(order)
      && (forall s :: s in t ==> t[s].count >= 1)
      && Sum(order, s => if s in t then t[s].count else 0) == |customers|
  {
    var t, order := SegmentTable(customers), KeysInOrder(customers, SegmentOf);
    KeysInOrderProperties(customers, SegmentOf);
    KeyCountsSum(customers, SegmentOf);
    forall s | s in t ensures t[s].count >= 1 {
      KeyCountListed(customers, SegmentOf, s);
    }
    SumCongruent(order, s => if s in t then t[s].count else 0, k => KeyCount(customers, SegmentOf, k));
  }

  /** Every segment of the acquisition breakdown has customers, so its average cost is defined. */
  lemma AcquisitionBreakdown(customers: seq<CustomerData>)
    ensures forall s :: s in CacBySegment(customers) <==> s in KeyList(customers, SegmentOf)
    ensures forall s :: s in CacBySegment(customers) ==>
      && CacBySegment(customers)[s].customerCount >= 1
      && CacBySegment(customers)[s].customerCount == KeyCount(customers, SegmentOf, s)
  {
    forall s | s in CacBySegment(customers) ensures CacBySegment(customers)[s].customerCount >= 1 {
      KeyCountListed(customers, SegmentOf, s);
    }
  }

  /** The average acquisition cost reported is the service's customer acquisition cost metric, 2567.00. */
  lemma AcquisitionAverage(customers: seq<CustomerData>)
    ensures Analysis("acquisition_cost", customers).Ok?
    ensures Analysis("acquisition_cost", customers).value.averageCac == 256700
    ensures Analysis("acquisition_cost", customers).value.totalCustomers == |customers|
  {
    var p := PeriodOr(None);
    SelectionByKey(AcquisitionKeys, None);
    assert SelectedMetrics(AcquisitionKeys, None) == [AcquisitionCostMetric(p)];
  }

  // ---------------------------------------------------------------------------
  // get_financial_summary

  /** The position of the first metric whose lower-cased name contains `word`, or `|ms|`. */
  function FirstNamed(ms: seq<FinancialMetrics>, word: string): (k: nat)
    ensures k <= |ms|
    ensures k < |ms| ==> Contains(Lower(ms[k].metricName), word)
    ensures forall j :: 0 <= j < k ==> !Contains(Lower(ms[j].metricName), word)
    decreases |ms|
  {
    if ms == [] then 0
    else if Contains(Lower(ms[0].metricName), word) then 0
    else 1 + FirstNamed(ms[1..], word)
  }

  /** `next((float(m.value) for m in ms if word in m.metric_name.lower()), 0)` */
  function NextValue(ms: seq<FinancialMetrics>, word: string): int {
    var k := FirstNamed(ms, word);
    if k < |ms| then ms[k].value else 0
  }

  /** The position `max(rs, key=revenue)` picks: a highest revenue, the first one among equals. */
  function MaxRevenueIndex(rs: seq<SalesReport>): (k: nat)
    requires rs != []
    ensures k < |rs|
    ensures forall j :: 0 <= j < |rs| ==> rs[j].revenue <= rs[k].revenue
    ensures forall j :: 0 <= j < k ==> rs[j].revenue < rs[k].revenue
    decreases |rs|
  {
    if |rs| == 1 then 0
    else
      var m := MaxRevenueIndex(rs[..|rs| - 1]);
      if rs[|rs| - 1].revenue > rs[m].revenue then |rs| - 1 else m
  }

  function TopProductName(rs: seq<SalesReport>): string {
    if rs == [] then "N/A" else rs[MaxRevenueIndex(rs)].productName
  }

  datatype Forecasts = Forecasts(nextQuarterRevenue: Json, growthProjection: string, marketConditions: string)

  datatype SummaryBody =
    | Executive(title: string, totalRevenue: int, revenueGrowth: int, profitMargin: int,
                acquisitionCost: int, totalCustomers: nat, topProduct: string)
    | Operational(title: string, totalSalesTransactions: nat, salesRevenue: int)
    | Comprehensive(title: string, totalRevenue: int, totalSales: nat, activeCustomers: nat, teamSize: nat)

  datatype FinancialSummary = FinancialSummary(
    reportType: string,
    period: string,
    includeForecasts: bool,
    summary: SummaryBody,
    forecasts: Option<Forecasts>)

  const AllMetricKeys: seq<string> := ["customer_acquisition_cost", "revenue_growth_rate", "profit_margin"]

  /** `get_financial_summary`; an unknown report type gets the comprehensive summary. */
  function GetFinancialSummary(reportType: string, period: string, includeForecasts: bool): FinancialSummary {
    var sales := GetSalesReports(None, None);
    var revenue := GetRevenueData(None);
    var team := GetEmployeePerformance(None);
    var customers := GetCustomerData(None);
    var keyMetrics := SelectedMetrics(AllMetricKeys, None);
    var body :=
      if reportType == "executive" then
        Executive("Executive Summary - " + period, Sum(revenue, RevenueAmount),
                  NextValue(keyMetrics, "growth"), NextValue(keyMetrics, "margin"), NextValue(keyMetrics, "acquisition"),
                  |customers|, TopProductName(sales))
      else if reportType == "operational" then
        Operational("Operational Summary - " + period, |sales|, Sum(sales, Revenue))
      else
        Comprehensive("Financial Summary - " + period, Sum(revenue, RevenueAmount), |sales|, |customers|, |team|);
    var forecasts :=
      if includeForecasts then
        Some(Forecasts(Get(AnalyzeTrends("sales", "6months").fields, "forecast", JStr("Data not available")),
                       "15% expected growth", "Favorable"))
      else None;
    FinancialSummary(reportType, period, includeForecasts, body, forecasts)
  }

  /** The best-selling product by revenue is the enterprise licence. */
  lemma TopProductOfSales()
    ensures TopProductName(SalesData) == "Enterprise Software License"
  {
    var k := MaxRevenueIndex(SalesData);
    assert SalesData[k].revenue >= SalesData[0].revenue;
  }

  /** `next(...)` over three metrics: the value of the first whose name contains `word`. */
  lemma NextValueOfThree(x: FinancialMetrics, y: FinancialMetrics, z: FinancialMetrics, word: string)
    ensures NextValue([x, y, z], word) ==
      if Contains(Lower(x.metricName), word) then x.value
      else if Contains(Lower(y.metricName), word) then y.value
      else if Contains(Lower(z.metricName), word) then z.value
      else 0
  {
    var ms := [x, y, z];
    assert ms[1..] == [y, z] && ms[1..][1..] == [z] && ms[1..][1..][1..] == [];
    assert FirstNamed([z], word) == if Contains(Lower(z.metricName), word) then 0 else 1;
    assert FirstNamed([y, z], word) == if Contains(Lower(y.metricName), word) then 0 else 1 + FirstNamed([z], word);
  }

  /** The metric names, lower-cased as the summary compares them. */
  lemma LoweredAcquisitionName(p: string)
    ensures Lower(AcquisitionCostMetric(p).metricName) == "customer acquisition cost"
  {
    var name := AcquisitionCostMetric(p).metricName;
    assert name == "Customer Acquisition Cost";
  }

  lemma LoweredGrowthName(p: string)
    ensures Lower(GrowthRateMetric(p).metricName) == "revenue growth rate"
  {
    var name := GrowthRateMetric(p).metricName;
    assert name == "Revenue Growth Rate";
  }

  lemma LoweredMarginName(p: string)
    ensures Lower(ProfitMarginMetric(p).metricName) == "gross profit margin"
  {
    var name := ProfitMarginMetric(p).metricName;
    assert name == "Gross Profit Margin";
  }

  /** Which words of the executive summary occur in which metric names. */
  lemma AcquisitionNameWords(name: string)
    requires name == "customer acquisition cost"
    ensures Contains(name, "acquisition") && !Contains(name, "growth") && !Contains(name, "margin")
  {
    assert name[9..20] == "acquisition";
    ContainsAt(name, "acquisition", 9);
    NotContainsHead(name, "growth");
    AcquisitionLacksMargin(name);
  }

  /** "ma" never stands in the acquisition-cost name, so "margin" does not occur in it. */
  lemma AcquisitionLacksMargin(name: string)
    requires name == "customer acquisition cost"
    ensures !Contains(name, "margin")
  {
    forall i | 0 <= i < |name| - 1 ensures !(name[i] == 'm' && name[i + 1] == 'a') {
      if name[i] == 'm' {
        assert i == 5;
      }
    }
    NotContainsFirstPair(name, "margin");
  }

  lemma GrowthNameWords(name: string)
    requires name == "revenue growth rate"
    ensures Contains(name, "growth") && !Contains(name, "margin")
  {
    assert name[8..14] == "growth";
    ContainsAt(name, "growth", 8);
    NotContainsHead(name, "margin");
  }

  lemma MarginNameWords(name: string)
    requires name == "gross profit margin"
    ensures Contains(name, "margin")
  {
    assert name[13..19] == "margin";
    ContainsAt(name, "margin", 13);
  }

  /** The key metrics are found by the words of their names. */
  lemma KeyMetricValues(period: Option<string>)
    ensures var ms := SelectedMetrics(AllMetricKeys, period);
      && NextValue(ms, "growth") == 1250
      && NextValue(ms, "margin") == 6850
      && NextValue(ms, "acquisition") == 256700
  {
    var p := PeriodOr(period);
    SelectionByKey(AllMetricKeys, period);
    var x, y, z := AcquisitionCostMetric(p), GrowthRateMetric(p), ProfitMarginMetric(p);
    assert SelectedMetrics(AllMetricKeys, period) == [x, y, z];
    LoweredAcquisitionName(p);
    LoweredGrowthName(p);
    LoweredMarginName(p);
    AcquisitionNameWords(Lower(x.metricName));
    GrowthNameWords(Lower(y.metricName));
    MarginNameWords(Lower(z.metricName));
    NextValueOfThree(x, y, z, "growth");
    NextValueOfThree(x, y, z, "margin");
    NextValueOfThree(x, y, z, "acquisition");
  }

  /** The totals of the fixed datasets: revenue 9,773,000.00 over four quarters, five sales worth 362,000.00, three customers, three employees. */
  lemma DatasetTotals()
    ensures Sum(GetRevenueData(None), RevenueAmount) == 977300000
    ensures |GetSalesReports(None, None)| == 5 && Sum(GetSalesReports(None, None), Revenue) == 36200000
    ensures |GetCustomerData(None)| == 3 && |GetEmployeePerformance(None)| == 3
  {
    assert Sum(RevenueRows, RevenueAmount) == 977300000;
    assert Sum(SalesData, Revenue) == 36200000;
  }

  /**
   * The executive summary: total revenue, the growth, margin and acquisition
   * cost metrics found by name, the customer count and the top product by revenue.
   */
  lemma ExecutiveFigures(reportType: string, period: string, includeForecasts: bool)
    requires reportType == "executive"
    ensures GetFinancialSummary(reportType, period, includeForecasts).summary ==
      Executive("Executive Summary - " + period, 977300000, 1250, 6850, 256700, 3, "Enterprise Software License")
  {
    DatasetTotals();
    KeyMetricValues(None);
    TopProductOfSales();
  }

  lemma OperationalFigures(reportType: string, period: string, includeForecasts: bool)
    requires reportType == "operational"
    ensures GetFinancialSummary(reportType, period, includeForecasts).summary ==
      Operational("Operational Summary - " + period, 5, 36200000)
  {
    DatasetTotals();
  }

  /** Any report type other than executive and operational gets the comprehensive summary. */
  lemma ComprehensiveFigures(reportType: string, period: string, includeForecasts: bool)
    requires reportType != "executive" && reportType != "operational"
    ensures GetFinancialSummary(reportType, period, includeForecasts).summary ==
      Comprehensive("Financial Summary - " + period, 977300000, 5, 3, 3)
  {
    DatasetTotals();
  }

  /** Forecasts are present exactly when asked for, and carry the forecast of the sales trend. */
  lemma SummaryForecasts(reportType: string, period: string, includeForecasts: bool)
    ensures var r := GetFinancialSummary(reportType, period, includeForecasts);
      && r.reportType == reportType && r.period == period
      && (r.forecasts.Some? <==> includeForecasts)
      && (includeForecasts ==>
            r.forecasts.value.nextQuarterRevenue == JStr("Continued growth expected with 15% increase in Q1 2025"))
  {
  }
}
