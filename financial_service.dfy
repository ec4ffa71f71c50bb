/**
 * `FinancialService`: fixed demonstration datasets behind case-insensitive
 * filters, the selection of financial metrics by name, the trend lookup and the
 * canned search. The service holds no state; each operation is a function of
 * its arguments (the random `total_results` of a search is a parameter).
 * The longest fixed texts are written as `+`-joined pieces, which keeps the
 * proofs that mention them cheap.
 */
module FinancialService {
  import opened Wrappers
  import opened Json
  import opened Text
  import opened Lists
  import opened FinancialModels

  /** Python's truth test on an optional string: present and non-empty. */
  predicate Given(x: Option<string>) {
    x.Some? && x.value != []
  }

  /** `a.lower() == b.lower()` */
  predicate SameFolded(a: string, b: string) {
    Lower(a) == Lower(b)
  }

  // ---------------------------------------------------------------------------
  // Sales

  const SalesData: seq<SalesReport> := [
    SalesReport("PROD001", "Enterprise Software License", "Software", 12500000, 50, 12500000, 75,
                "North America", "Alice Johnson"),
    SalesReport("PROD002", "Consulting Services", "Services", 8950000, 179, 8950000, 65,
                "Europe", "Bob Smith"),
    SalesReport("PROD003", "Hardware Components", "Hardware", 6780000, 226, 6780000, 35,
                "Asia Pacific", "Carol Chen"),
    SalesReport("PROD004", "Training Package", "Services", 3450000, 115, 3450000, 80,
                "North America", "David Wilson"),
    SalesReport("PROD005", "Mobile App License", "Software", 4520000, 904, 4520000, 85,
                "Europe", "Eva Rodriguez")
  ]

  function CategoryTest(category: string): SalesReport -> bool {
    (s: SalesReport) => SameFolded(s.category, category)
  }

  /** The reports of `data` in the given category, ignoring case; all of them without one. */
  function ByCategory(data: seq<SalesReport>, category: Option<string>): seq<SalesReport> {
    if Given(category) then Filter(data, CategoryTest(category.value)) else data
  }

  /** The category selection is an order-preserving sublist holding exactly the reports of that category. */
  lemma ByCategorySelection(data: seq<SalesReport>, category: Option<string>)
    ensures IsSubsequence(ByCategory(data, category), data)
    ensures !Given(category) ==> ByCategory(data, category) == data
    ensures Given(category) ==> forall s ::
      s in ByCategory(data, category) <==> s in data && SameFolded(s.category, category.value)
  {
    if Given(category) {
      FilterIsSubsequence(data, CategoryTest(category.value));
      FilterMembers(data, CategoryTest(category.value));
    } else {
      SubsequenceReflexive(data);
    }
  }

  /** `get_sales_reports`: `dateRange` is accepted and not used. */
  function GetSalesReports(dateRange: Option<string>, category: Option<string>): seq<SalesReport> {
    ByCategory(SalesData, category)
  }

  /**
   * The sales reports are an order-preserving sublist of the dataset: all of
   * it without a category, else exactly the reports whose category equals the
   * given one ignoring case; the date range never changes the answer.
   */
  lemma SalesReportsFilter(dateRange: Option<string>, category: Option<string>, otherRange: Option<string>)
    ensures IsSubsequence(GetSalesReports(dateRange, category), SalesData)
    ensures !Given(category) ==> GetSalesReports(dateRange, category) == SalesData
    ensures Given(category) ==> forall s ::
      s in GetSalesReports(dateRange, category) <==> s in SalesData && SameFolded(s.category, category.value)
    ensures GetSalesReports(otherRange, category) == GetSalesReports(dateRange, category)
  {
    ByCategorySelection(SalesData, category);
  }

  // ---------------------------------------------------------------------------
  // Revenue

  const RevenueRows: seq<RevenueData> := [
    RevenueData("Q4 2024", 285000000, 210000000, 75000000, 125, "Software Licenses", Some("Sales")),
    RevenueData("Q3 2024", 254000000, 195000000, 59000000, 83, "Services", Some("Consulting")),
    RevenueData("Q2 2024", 234500000, 180000000, 54500000, 152, "Hardware Sales", Some("Sales")),
    RevenueData("Q1 2024", 203800000, 165000000, 38800000, 67, "Training", Some("Education"))
  ]

  /** `get_revenue_data`: a period selects the rows whose period contains it, ignoring case. */
  function GetRevenueData(period: Option<string>): seq<RevenueData> {
    if Given(period) then Filter(RevenueRows, (r: RevenueData) => Contains(Lower(r.period), Lower(period.value)))
    else RevenueRows
  }

  /** The revenue rows are an order-preserving sublist, selected by case-insensitive substring. */
  lemma RevenueDataFilter(period: Option<string>)
    ensures IsSubsequence(GetRevenueData(period), RevenueRows)
    ensures !Given(period) ==> GetRevenueData(period) == RevenueRows
    ensures Given(period) ==> forall r ::
      r in GetRevenueData(period) <==> r in RevenueRows && Contains(Lower(r.period), Lower(period.value))
  {
    if Given(period) {
      var p := (r: RevenueData) => Contains(Lower(r.period), Lower(period.value));
      FilterIsSubsequence(RevenueRows, p);
      FilterMembers(RevenueRows, p);
    } else {
      SubsequenceReflexive(RevenueRows);
    }
  }

  /** The periods of the revenue rows, lower-cased. */
  lemma LoweredPeriods()
    ensures Lower(RevenueRows[0].period) == "q4 2024"
    ensures Lower(RevenueRows[1].period) == "q3 2024"
    ensures Lower(RevenueRows[2].period) == "q2 2024"
    ensures Lower(RevenueRows[3].period) == "q1 2024"
  {
  }

  /** A year keeps every quarter. */
  lemma RevenueForYear()
    ensures GetRevenueData(Some("2024")) == RevenueRows
  {
    LoweredPeriods();
    assert Lower("2024") == "2024";
    forall i | 0 <= i < 4 ensures Contains(Lower(RevenueRows[i].period), "2024") {
      var s := Lower(RevenueRows[i].period);
      assert s[3..7] == "2024";
      ContainsAt(s, "2024", 3);
    }
    FilterAllOrNone(RevenueRows, (r: RevenueData) => Contains(Lower(r.period), Lower("2024")));
  }

  /** "q4" keeps only the fourth quarter. */
  lemma RevenueForQuarter()
    ensures GetRevenueData(Some("q4")) == [RevenueRows[0]]
  {
    LoweredPeriods();
    assert Lower("q4") == "q4";
    var s0 := Lower(RevenueRows[0].period);
    assert s0[0..2] == "q4";
    ContainsAt(s0, "q4", 0);
    forall i | 1 <= i < 4 ensures !Contains(Lower(RevenueRows[i].period), "q4") {
      ContainsPair(Lower(RevenueRows[i].period), 'q', '4');
    }
    var q4 := (r: RevenueData) => Contains(Lower(r.period), Lower("q4"));
    FilterAllOrNone(RevenueRows[1..], q4);
    assert Filter(RevenueRows, q4) == [RevenueRows[0]] + Filter(RevenueRows[1..], q4);
  }

  /** A granularity word such as "quarterly" matches no period at all. */
  lemma RevenueForGranularity()
    ensures GetRevenueData(Some("quarterly")) == []
  {
    forall i | 0 <= i < 4 ensures !Contains(Lower(RevenueRows[i].period), Lower("quarterly")) {
      NotContainsLonger(Lower(RevenueRows[i].period), Lower("quarterly"));
    }
    FilterAllOrNone(RevenueRows, (r: RevenueData) => Contains(Lower(r.period), Lower("quarterly")));
  }

  // ---------------------------------------------------------------------------
  // Employees, inventory, customers

  const EmployeeRows: seq<EmployeePerformance> := [
    EmployeePerformance("EMP001", "Alice Johnson", "Sales", "Senior Sales Manager", 47,
                        Some(50000000), Some(62500000), Some(3125000), "Q4 2024"),
    EmployeePerformance("EMP002", "Bob Smith", "Consulting", "Principal Consultant", 45,
                        Some(30000000), Some(32000000), Some(1600000), "Q4 2024"),
    EmployeePerformance("EMP003", "Carol Chen", "Engineering", "Software Engineer", 48,
                        None, None, None, "Q4 2024")
  ]

  /** `get_employee_performance` */
  function GetEmployeePerformance(department: Option<string>): seq<EmployeePerformance> {
    if Given(department) then Filter(EmployeeRows, (e: EmployeePerformance) => SameFolded(e.department, department.value))
    else EmployeeRows
  }

  lemma EmployeePerformanceFilter(department: Option<string>)
    ensures IsSubsequence(GetEmployeePerformance(department), EmployeeRows)
    ensures !Given(department) ==> GetEmployeePerformance(department) == EmployeeRows
    ensures Given(department) ==> forall e ::
      e in GetEmployeePerformance(department) <==> e in EmployeeRows && SameFolded(e.department, department.value)
  {
    if Given(department) {
      var p := (e: EmployeePerformance) => SameFolded(e.department, department.value);
      FilterIsSubsequence(EmployeeRows, p);
      FilterMembers(EmployeeRows, p);
    } else {
      SubsequenceReflexive(EmployeeRows);
    }
  }

  const InventoryRows: seq<InventoryData> := [
    InventoryData("INV001", "Server Unit Model X", "Hardware", 45, 20, 250000, 375000, "TechCorp Inc", "Warehouse A"),
    InventoryData("INV002", "Software License Keys", "Software", 500, 100, 15000, 29900, "SoftDev Solutions",
                  "Digital Inventory"),
    InventoryData("INV003", "Network Equipment", "Hardware", 12, 15, 120000, 189900, "NetWork Pro", "Warehouse B")
  ]

  /** `get_inventory_data` */
  function GetInventoryData(category: Option<string>): seq<InventoryData> {
    if Given(category) then Filter(InventoryRows, (i: InventoryData) => SameFolded(i.category, category.value))
    else InventoryRows
  }

  lemma InventoryDataFilter(category: Option<string>)
    ensures IsSubsequence(GetInventoryData(category), InventoryRows)
    ensures !Given(category) ==> GetInventoryData(category) == InventoryRows
    ensures Given(category) ==> forall i ::
      i in GetInventoryData(category) <==> i in InventoryRows && SameFolded(i.category, category.value)
  {
    if Given(category) {
      var p := (i: InventoryData) => SameFolded(i.category, category.value);
      FilterIsSubsequence(InventoryRows, p);
      FilterMembers(InventoryRows, p);
    } else {
      SubsequenceReflexive(InventoryRows);
    }
  }

  const CustomerRows: seq<CustomerData> := [
    CustomerData("CUST001", 500000, 12500000, "enterprise", "North America", 15, 833333, "low"),
    CustomerData("CUST002", 150000, 4500000, "smb", "Europe", 8, 562500, "medium"),
    CustomerData("CUST003", 20000, 240000, "individual", "Asia Pacific", 12, 20000, "low")
  ]

  /** `get_customer_data` */
  function GetCustomerData(segment: Option<string>): seq<CustomerData> {
    if Given(segment) then Filter(CustomerRows, (c: CustomerData) => SameFolded(c.segment, segment.value))
    else CustomerRows
  }

  lemma CustomerDataFilter(segment: Option<string>)
    ensures IsSubsequence(GetCustomerData(segment), CustomerRows)
    ensures !Given(segment) ==> GetCustomerData(segment) == CustomerRows
    ensures Given(segment) ==> forall c ::
      c in GetCustomerData(segment) <==> c in CustomerRows && SameFolded(c.segment, segment.value)
  {
    if Given(segment) {
      var p := (c: CustomerData) => SameFolded(c.segment, segment.value);
      FilterIsSubsequence(CustomerRows, p);
      FilterMembers(CustomerRows, p);
    } else {
      SubsequenceReflexive(CustomerRows);
    }
  }

  // ---------------------------------------------------------------------------
  // Financial metrics

  /** `period or "Q4 2024"` */
  function PeriodOr(period: Option<string>): string {
    if Given(period) then period.value else "Q4 2024"
  }

  function AcquisitionCostMetric(period: string): FinancialMetrics {
    FinancialMetrics(
      "Customer Acquisition Cost", 256700, period,
      "Total Marketing Spend / New Customers Acquired", Some(300000), Down,
      map["marketing_spend" := JStr("385000"), "new_customers" := JInt(150),
          "improvement_vs_last_quarter" := JStr("15%")])
  }

  function GrowthRateMetric(period: string): FinancialMetrics {
    FinancialMetrics(
      "Revenue Growth Rate", 1250, period,
      "((Current Period Revenue - Previous Period Revenue)" + " / Previous Period Revenue) * 100", Some(1000), Up,
      map["current_revenue" := JStr("2850000"), "previous_revenue" := JStr("2540000"),
          "target_growth" := JStr("10%")])
  }

  function ProfitMarginMetric(period: string): FinancialMetrics {
    FinancialMetrics(
      "Gross Profit Margin", 6850, period,
      "((Revenue - Cost of Goods Sold) / Revenue) * 100", Some(6500), Up,
      map["revenue" := JStr("2850000"), "cogs" := JStr("897750"), "industry_average" := JStr("62%")])
  }

  /** A metric the service can compute, under the name a caller asks for it by. */
  datatype CatalogueEntry = Entry(key: string, metric: FinancialMetrics)

  /** The computable metrics in the order the service reports them. */
  function Catalogue(period: string): seq<CatalogueEntry> {
    [ Entry("customer_acquisition_cost", AcquisitionCostMetric(period)),
      Entry("revenue_growth_rate", GrowthRateMetric(period)),
      Entry("profit_margin", ProfitMarginMetric(period)) ]
  }

  function Metrics(entries: seq<CatalogueEntry>): seq<FinancialMetrics> {
    seq(|entries|, i requires 0 <= i < |entries| => entries[i].metric)
  }

  /** The metrics requested by `names`: the catalogue entries whose key is named, in catalogue order. */
  function SelectedMetrics(names: seq<string>, period: Option<string>): seq<FinancialMetrics> {
    Metrics(Filter(Catalogue(PeriodOr(period)), (e: CatalogueEntry) => e.key in names))
  }

  /** `calculate_financial_metrics`: one conditional append per computable metric. */
  method CalculateFinancialMetrics(metricNames: seq<string>, period: Option<string>) returns (metrics: seq<FinancialMetrics>)
    ensures metrics == SelectedMetrics(metricNames, period)
  {
    var p := PeriodOr(period);
    var acquisition, growth, margin := AcquisitionCostMetric(p), GrowthRateMetric(p), ProfitMarginMetric(p);
    metrics := [];
    if "customer_acquisition_cost" in metricNames {
      metrics := metrics + [acquisition];
    }
    if "revenue_growth_rate" in metricNames {
      metrics := metrics + [growth];
    }
    if "profit_margin" in metricNames {
      metrics := metrics + [margin];
    }
    SelectionByKey(metricNames, period);
  }

  lemma {:induction false} MetricsAppend(a: seq<CatalogueEntry>, b: seq<CatalogueEntry>)
    ensures Metrics(a + b) == Metrics(a) + Metrics(b)
  {
  }

  /** The catalogue filter, entry by entry. */
  lemma CatalogueSelection(names: seq<string>, p: string)
    ensures Filter(Catalogue(p), (e: CatalogueEntry) => e.key in names) ==
      (if "customer_acquisition_cost" in names then [Catalogue(p)[0]] else [])
      + (if "revenue_growth_rate" in names then [Catalogue(p)[1]] else [])
      + (if "profit_margin" in names then [Catalogue(p)[2]] else [])
  {
    var c := Catalogue(p);
    var f := (e: CatalogueEntry) => e.key in names;
    assert c[1..][1..][1..] == [];
    assert Filter(c[1..][1..], f) == (if f(c[2]) then [c[2]] else []) + Filter(c[1..][1..][1..], f);
  }

  /** Filtering a three-entry catalogue keyed like the service's, for any three metrics. */
  lemma {:induction false} KeyedSelection(names: seq<string>, x: FinancialMetrics, y: FinancialMetrics, z: FinancialMetrics)
    ensures var c := [Entry("customer_acquisition_cost", x), Entry("revenue_growth_rate", y), Entry("profit_margin", z)];
      Metrics(Filter(c, (e: CatalogueEntry) => e.key in names)) ==
        (if "customer_acquisition_cost" in names then [x] else [])
        + (if "revenue_growth_rate" in names then [y] else [])
        + (if "profit_margin" in names then [z] else [])
  {
    var c := [Entry("customer_acquisition_cost", x), Entry("revenue_growth_rate", y), Entry("profit_margin", z)];
    var f := (e: CatalogueEntry) => e.key in names;
    assert c[1..][1..][1..] == [];
    assert Filter(c[1..][1..], f) == (if f(c[2]) then [c[2]] else []) + Filter(c[1..][1..][1..], f);
    var a := if "customer_acquisition_cost" in names then [c[0]] else [];
    var b := if "revenue_growth_rate" in names then [c[1]] else [];
    var m := if "profit_margin" in names then [c[2]] else [];
    assert Filter(c, f) == a + b + m;
    MetricsAppend(a + b, m);
    MetricsAppend(a, b);
  }

  /** The selected metrics, metric by metric. */
  lemma {:induction false} SelectionByKey(names: seq<string>, period: Option<string>)
    ensures var p := PeriodOr(period);
      SelectedMetrics(names, period) ==
        (if "customer_acquisition_cost" in names then [AcquisitionCostMetric(p)] else [])
        + (if "revenue_growth_rate" in names then [GrowthRateMetric(p)] else [])
        + (if "profit_margin" in names then [ProfitMarginMetric(p)] else [])
  {
    var p := PeriodOr(period);
    KeyedSelection(names, AcquisitionCostMetric(p), GrowthRateMetric(p), ProfitMarginMetric(p));
  }

  /** Up to three distinct values kept in order by three independent choices. */
  lemma ChosenInOrder<T>(x: T, y: T, z: T, a: bool, b: bool, c: bool)
    requires x != y && y != z && x != z
    ensures var r := Optional(a, x) + Optional(b, y) + Optional(c, z);
      && |r| <= 3
      && IsSubsequence(r, [x, y, z])
      && (x in r <==> a) && (y in r <==> b) && (z in r <==> c)
  {
    var r := Optional(a, x) + Optional(b, y) + Optional(c, z);
    var all := [x, y, z];
    var tail := Optional(c, z);
    var mid := Optional(b, y) + tail;
    assert IsSubsequence(tail, all[1..][1..]);
    assert IsSubsequence(mid, all[1..]) by {
      if !b { assert mid == tail; assert IsSubsequence(mid, all[1..][1..]); }
    }
    assert IsSubsequence(r, all) by {
      if !a { assert r == mid; assert IsSubsequence(r, all[1..]); }
    }
  }

  /**
   * At most three metrics, in catalogue order, each present exactly when its key
   * is requested.
   */
  lemma MetricsSelection(names: seq<string>, period: Option<string>)
    ensures var r := SelectedMetrics(names, period);
      var p := PeriodOr(period);
      && |r| <= 3
      && IsSubsequence(r, [AcquisitionCostMetric(p), GrowthRateMetric(p), ProfitMarginMetric(p)])
      && (AcquisitionCostMetric(p) in r <==> "customer_acquisition_cost" in names)
      && (GrowthRateMetric(p) in r <==> "revenue_growth_rate" in names)
      && (ProfitMarginMetric(p) in r <==> "profit_margin" in names)
  {
    var p := PeriodOr(period);
    var x, y, z := AcquisitionCostMetric(p), GrowthRateMetric(p), ProfitMarginMetric(p);
    var a, b, c := "customer_acquisition_cost" in names, "revenue_growth_rate" in names, "profit_margin" in names;
    SelectionByKey(names, period);
    assert x.metricName != y.metricName && y.metricName != z.metricName && x.metricName != z.metricName;
    ChosenInOrder(x, y, z, a, b, c);
  }

  /**
   * Every selected metric is for the requested period, or "Q4 2024" when none
   * is given, and no metric name occurs twice.
   */
  lemma MetricsPeriodAndNames(names: seq<string>, period: Option<string>)
    ensures var r := SelectedMetrics(names, period);
      && (forall i :: 0 <= i < |r| ==> r[i].period == PeriodOr(period))
      && (forall i, j :: 0 <= i < j < |r| ==> r[i].metricName != r[j].metricName)
  {
    var p := PeriodOr(period);
    var x, y, z := AcquisitionCostMetric(p), GrowthRateMetric(p), ProfitMarginMetric(p);
    SelectionByKey(names, period);
    ChosenShareFields(x, y, z, "customer_acquisition_cost" in names, "revenue_growth_rate" in names,
                      "profit_margin" in names, p);
  }

  /** Three metrics for one period with distinct names keep both facts under any choice of them. */
  lemma {:induction false} ChosenShareFields(x: FinancialMetrics, y: FinancialMetrics, z: FinancialMetrics,
                                             a: bool, b: bool, c: bool, p: string)
    requires x.period == p && y.period == p && z.period == p
    requires x.metricName != y.metricName && y.metricName != z.metricName && x.metricName != z.metricName
    ensures var r := Optional(a, x) + Optional(b, y) + Optional(c, z);
      && (forall i :: 0 <= i < |r| ==> r[i].period == p)
      && (forall i, j :: 0 <= i < j < |r| ==> r[i].metricName != r[j].metricName)
  {
    var r := Optional(a, x) + Optional(b, y) + Optional(c, z);
    assert forall m :: m in r ==> m == x || m == y || m == z;
    forall i, j | 0 <= i < j < |r|
      ensures r[i].metricName != r[j].metricName
    {
      assert r[i] == x ==> i == 0 && a;
      assert r[j] == z ==> j == |r| - 1 && c;
    }
  }

  /** Only which names are requested matters: their order and repetitions do not. */
  lemma MetricsDependOnNameSet(names: seq<string>, others: seq<string>, period: Option<string>)
    requires forall k :: k in names <==> k in others
    ensures SelectedMetrics(names, period) == SelectedMetrics(others, period)
    ensures SelectedMetrics(names + names, period) == SelectedMetrics(names, period)
  {
    var p := PeriodOr(period);
    CatalogueSelection(names, p);
    CatalogueSelection(others, p);
    CatalogueSelection(names + names, p);
  }

  // ---------------------------------------------------------------------------
  // Trends and search

  function DataPoint(period: string, value: int): Json {
    JObject(map["period" := JStr(period), "value" := JInt(value)])
  }

  /** The one trend the service knows, for sales. */
  const SalesTrend: Json :=
    JObject(map[
      "direction" := JStr("up"),
      "percentage_change" := JDecimal(187, 1),
      "key_drivers" := StrList(["New product launches", "Market expansion", "Improved sales process"]),
      "seasonal_patterns" := JStr("Q4 typically shows 25% increase due to enterprise budget cycles"),
      "forecast" := JStr("Continued growth expected with 15% increase in Q1 2025"),
      "data_points" := JList([
        DataPoint("2024-07", 2100000), DataPoint("2024-08", 2250000), DataPoint("2024-09", 2380000),
        DataPoint("2024-10", 2450000), DataPoint("2024-11", 2600000), DataPoint("2024-12", 2850000)])])

  const NoTrendPrefix: string := "No trend data available for "

  /** `analyze_trends`: the period is accepted and not used. */
  function AnalyzeTrends(dataType: string, period: string): Json {
    if dataType == "sales" then SalesTrend
    else JObject(map["error" := JStr(NoTrendPrefix + dataType)])
  }

  /** "sales" gives the sales trend; any other type gives a lone error naming the type. */
  lemma AnalyzeTrendsCases(dataType: string, period: string, otherPeriod: string)
    ensures AnalyzeTrends(dataType, period) == AnalyzeTrends(dataType, otherPeriod)
    ensures AnalyzeTrends(dataType, period).JObject?
    ensures "error" in AnalyzeTrends(dataType, period).fields <==> dataType != "sales"
    ensures dataType != "sales" ==>
      var fields := AnalyzeTrends(dataType, period).fields;
      && fields.Keys == {"error"}
      && fields["error"].JStr?
      && Contains(fields["error"].s, dataType)
  {
    if dataType != "sales" {
      assert NoTrendPrefix + dataType == NoTrendPrefix + dataType + "";
      ContainsMiddle(NoTrendPrefix, dataType, "");
    }
  }

  /** One canned search result; `relevance` in hundredths. */
  datatype SearchHit = SearchHit(source: string, title: string, summary: string, metricValue: Json, relevance: int)

  datatype SearchResults = SearchResults(
    query: string,
    sourcesSearched: seq<string>,
    totalResults: int,
    results: seq<SearchHit>)

  const DefaultSources: seq<string> := ["sales", "revenue", "expenses", "customers"]

  const TopProductHits: seq<SearchHit> := [
    SearchHit("sales_reports", "Enterprise Software License - Top Performer Q4",
              "Generated $125,000 in revenue with 75% profit margin", JInt(125000), 95),
    SearchHit("sales_reports", "Consulting Services - Strong Growth",
              "Achieved $89,500 in sales with consistent demand", JInt(89500), 88)
  ]

  const TrendHits: seq<SearchHit> := [
    SearchHit("revenue_analysis", "6-Month Revenue Trend Analysis",
              "18.7% growth trend with strong Q4 performance", JDecimal(187, 1), 92)
  ]

  /**
   * `search_financial_data`; `randomTotal` is the `random.randint(5, 25)` draw,
   * reported as the total whatever the results are.
   */
  function SearchFinancialData(query: string, dataSources: Option<seq<string>>, randomTotal: int): SearchResults
    requires 5 <= randomTotal <= 25
  {
    var q := Lower(query);
    SearchResults(
      query,
      if dataSources.Some? && dataSources.value != [] then dataSources.value else DefaultSources,
      randomTotal,
      if Contains(q, "top") && Contains(q, "product") then TopProductHits
      else if Contains(q, "trend") then TrendHits
      else [])
  }

  /**
   * The results follow the dispatch on the lower-cased query: two sales hits
   * for "top" with "product", else one trend hit for "trend", else none; the
   * sources default when none are given; the total is the drawn number.
   */
  lemma SearchDispatch(query: string, dataSources: Option<seq<string>>, randomTotal: int)
    requires 5 <= randomTotal <= 25
    ensures var r := SearchFinancialData(query, dataSources, randomTotal);
      var q := Lower(query);
      && r.query == query
      && 5 <= r.totalResults <= 25
      && (|r.results| == 2 <==> Contains(q, "top") && Contains(q, "product"))
      && (|r.results| == 1 <==> !(Contains(q, "top") && Contains(q, "product")) && Contains(q, "trend"))
      && (r.results == [] <==> !(Contains(q, "top") && Contains(q, "product")) && !Contains(q, "trend"))
      && (forall i :: 0 <= i < |r.results| ==> r.results[i].source == (if |r.results| == 2 then "sales_reports" else "revenue_analysis"))
      && ((dataSources.None? || dataSources == Some([])) ==> r.sourcesSearched == DefaultSources)
      && (dataSources.Some? && dataSources.value != [] ==> r.sourcesSearched == dataSources.value)
  {
  }
}
