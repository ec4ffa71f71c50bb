/**
 * `financial_processing_tools`: the file, database, report, validation and
 * statistics tools over canned data. Each returns the structured value the
 * source serialises with `json.dumps`. The random draws the source makes are
 * parameters; processing times, sleeps and random file sizes are not part of
 * these values.
 */
module ProcessingTools {
  import opened Wrappers
  import opened Json
  import opened Text
  import opened Lists

  // ---------------------------------------------------------------------------
  // File names

  /** `s.split(sep)` for a one-character separator: the pieces between separators. */
  function Split(s: string, sep: char): (parts: seq<string>)
    ensures |parts| >= 1
    ensures forall i :: 0 <= i < |parts| ==> sep !in parts[i]
    decreases |s|
  {
    if s == [] then [[]]
    else
      var init := Split(s[..|s| - 1], sep);
      var c := s[|s| - 1];
      if c == sep then init + [[]]
      else init[..|init| - 1] + [init[|init| - 1] + [c]]
  }

  /** `sep.join(parts)` */
  function Join(parts: seq<string>, sep: char): string
    requires |parts| >= 1
    decreases |parts|
  {
    if |parts| == 1 then parts[0] else Join(parts[..|parts| - 1], sep) + [sep] + parts[|parts| - 1]
  }

  lemma JoinExtendLast(parts: seq<string>, c: char, sep: char)
    requires |parts| >= 1
    ensures Join(parts[..|parts| - 1] + [parts[|parts| - 1] + [c]], sep) == Join(parts, sep) + [c]
  {
    var q := parts[..|parts| - 1] + [parts[|parts| - 1] + [c]];
    if |parts| > 1 {
      assert q[..|q| - 1] == parts[..|parts| - 1];
    }
  }

  lemma JoinAppendEmpty(parts: seq<string>, sep: char)
    requires |parts| >= 1
    ensures Join(parts + [[]], sep) == Join(parts, sep) + [sep]
  {
    assert (parts + [[]])[..|parts|] == parts;
  }

  /** Joining the pieces with the separator gives back the string. */
  lemma {:induction false} JoinSplit(s: string, sep: char)
    ensures Join(Split(s, sep), sep) == s
    decreases |s|
  {
    if s != [] {
      var init := Split(s[..|s| - 1], sep);
      var c := s[|s| - 1];
      JoinSplit(s[..|s| - 1], sep);
      assert s == s[..|s| - 1] + [c];
      if c == sep {
        assert Split(s, sep) == init + [[]];
        JoinAppendEmpty(init, sep);
      } else {
        assert Split(s, sep) == init[..|init| - 1] + [init[|init| - 1] + [c]];
        JoinExtendLast(init, c, sep);
      }
    }
  }

  /**
   * The last piece of `s.split(sep)` is the end of `s` after its last
   * separator: the whole string when there is no separator, else a suffix
   * right after one.
   */
  predicate LastPieceShape(s: string, sep: char) {
    var parts := Split(s, sep);
    var last := parts[|parts| - 1];
    && |last| <= |s| && s[|s| - |last|..] == last
    && (|parts| == 1 <==> sep !in s)
    && (|parts| == 1 ==> last == s)
    && (|parts| > 1 ==> s[|s| - |last| - 1] == sep)
  }

  /** A string ending in the separator has an empty last piece. */
  lemma SplitLastAtSep(s: string, sep: char)
    requires s != [] && s[|s| - 1] == sep
    ensures LastPieceShape(s, sep)
  {
    assert Split(s, sep) == Split(s[..|s| - 1], sep) + [[]];
  }

  /** Appending a character other than the separator extends the last piece. */
  lemma SplitLastStep(s: string, sep: char)
    requires s != [] && s[|s| - 1] != sep
    requires LastPieceShape(s[..|s| - 1], sep)
    ensures LastPieceShape(s, sep)
  {
    var front, c := s[..|s| - 1], s[|s| - 1];
    var init := Split(front, sep);
    assert s == front + [c];
    var last := init[|init| - 1] + [c];
    assert Split(s, sep) == init[..|init| - 1] + [last];
    assert s[|s| - |last|..] == front[|front| - |last| + 1..] + [c];
    assert sep in s <==> sep in front;
  }

  /** The last piece is the end of the string after its last separator. */
  lemma {:induction false} SplitLast(s: string, sep: char)
    ensures LastPieceShape(s, sep)
    decreases |s|
  {
    if s == [] {
      assert Split(s, sep) == [[]];
    } else if s[|s| - 1] == sep {
      SplitLastAtSep(s, sep);
    } else {
      SplitLast(s[..|s| - 1], sep);
      SplitLastStep(s, sep);
    }
  }

  /** `path.split('/')[-1] if '/' in path else path` */
  function Basename(path: string): string {
    if '/' in path then
      var parts := Split(path, '/');
      parts[|parts| - 1]
    else path
  }

  /**
   * The file name is the part of the path after its last '/', or the whole path
   * when it has none: it holds no '/', it ends the path, and what comes before it
   * is empty or ends with '/'.
   */
  lemma BasenameIsLastSegment(path: string)
    ensures var name := Basename(path);
      && '/' !in name
      && |name| <= |path| && path[|path| - |name|..] == name
      && ('/' !in path ==> name == path)
      && ('/' in path ==> path[|path| - |name| - 1] == '/')
  {
    SplitLast(path, '/');
    var parts := Split(path, '/');
    assert '/' !in parts[|parts| - 1];
  }

  /** A directory prefix does not change the file name. */
  lemma BasenameOfJoined(dir: string, name: string)
    requires '/' !in name
    ensures Basename(dir + "/" + name) == name
  {
    var path := dir + "/" + name;
    var b := Basename(path);
    assert path[|dir|] == '/';
    BasenameIsLastSegment(path);
    assert path[|path| - |name|..] == name;
  }

  // ---------------------------------------------------------------------------
  // parse_csv_file

  /** The random draws of an unknown file's summary: `randint(1000, 20000)` rows and a quality `whole.tenth%`. */
  datatype CsvDraws = CsvDraws(totalRows: nat, qualityWhole: nat, qualityTenth: nat)

  const SalesCsv: Dict := map[
    "summary" := JObject(map[
      "total_rows" := JInt(15420),
      "columns" := StrList(["date", "product_id", "product_name", "sales_amount", "quantity", "region"]),
      "date_range" := JStr("2024-01-01 to 2024-12-31"),
      "total_sales" := JDecimal(285000050, 2),
      "unique_products" := JInt(145),
      "top_product" := JStr("Enterprise Software License"),
      "data_quality" := JStr("98.5% complete")]),
    "trends" := JObject(map[
      "monthly_growth" := JDecimal(83, 1),
      "seasonal_pattern" := JStr("Q4 shows 35% higher sales"),
      "best_performing_region" := JStr("North America"),
      "trend_direction" := JStr("upward")]),
    "validation" := JObject(map[
      "missing_values" := JInt(23),
      "duplicate_records" := JInt(2),
      "outliers_detected" := JInt(5),
      "data_consistency" := JStr("Good")])]

  const ExpensesCsv: Dict := map[
    "summary" := JObject(map[
      "total_rows" := JInt(8930),
      "columns" := StrList(["date", "category", "amount", "department", "vendor", "approval_status"]),
      "total_expenses" := JDecimal(124750075, 2),
      "categories" := JInt(12),
      "largest_category" := JStr("Software Licenses"),
      "data_quality" := JStr("96.2% complete")])]

  /** The files the parser knows, by file name. */
  function CsvFiles(): map<string, Dict> {
    map["sales_data.csv" := SalesCsv, "expenses_2024.csv" := ExpensesCsv]
  }

  /** The data of a file the parser does not know: a summary only. */
  function DefaultCsv(draws: CsvDraws): Dict {
    map["summary" := JObject(map[
      "total_rows" := JInt(draws.totalRows),
      "columns" := StrList(["date", "value", "category"]),
      "data_quality" := JStr(NatToString(draws.qualityWhole) + "." + NatToString(draws.qualityTenth) + "% complete")])]
  }

  function CsvFileData(filePath: string, draws: CsvDraws): Dict {
    var name := Basename(filePath);
    if name in CsvFiles() then CsvFiles()[name] else DefaultCsv(draws)
  }

  const CsvRecommendations: seq<string> := [
    "Consider cleaning missing values before analysis",
    "Validate outliers in high-value transactions",
    "Archive data older than 2 years for better performance"
  ]

  datatype CsvResult = CsvResult(
    filePath: string,
    analysisType: string,
    status: string,
    data: Json,
    recommendations: seq<string>)

  /** `parse_csv_file` */
  function ParseCsvFile(filePath: string, analysisType: string, draws: CsvDraws): CsvResult {
    var fileData := CsvFileData(filePath, draws);
    CsvResult(filePath, analysisType, "success",
              Get(fileData, analysisType, Get(fileData, "summary", JNull)), CsvRecommendations)
  }

  /**
   * Every file has a summary; the result is the requested analysis when the
   * file has one and the summary otherwise.
   */
  lemma CsvEntrySelection(filePath: string, analysisType: string, draws: CsvDraws)
    ensures var fileData := CsvFileData(filePath, draws);
      && "summary" in fileData
      && ParseCsvFile(filePath, analysisType, draws).data ==
           (if analysisType in fileData then fileData[analysisType] else fileData["summary"])
  {
  }

  /** Only the file name counts: the same file in any directory parses the same. */
  lemma CsvByFileName(dir: string, name: string, analysisType: string, draws: CsvDraws)
    requires '/' !in name
    ensures ParseCsvFile(dir + "/" + name, analysisType, draws).data == ParseCsvFile(name, analysisType, draws).data
  {
    BasenameOfJoined(dir, name);
  }

  /** A file the parser does not know answers every analysis with its random summary. */
  lemma CsvUnknownFile(filePath: string, analysisType: string, draws: CsvDraws)
    requires Basename(filePath) != "sales_data.csv" && Basename(filePath) != "expenses_2024.csv"
    ensures ParseCsvFile(filePath, analysisType, draws).data == DefaultCsv(draws)["summary"]
    ensures DefaultCsv(draws)["summary"].fields["total_rows"] == JInt(draws.totalRows)
  {
  }

  /** The expenses file has only a summary, which answers the trends and validation requests too. */
  lemma CsvExpensesSummaryOnly(filePath: string, analysisType: string, draws: CsvDraws)
    requires Basename(filePath) == "expenses_2024.csv"
    ensures ParseCsvFile(filePath, analysisType, draws).data == ExpensesCsv["summary"]
  {
    assert ExpensesCsv.Keys == {"summary"};
  }

  // ---------------------------------------------------------------------------
  // parse_excel_file

  /** The random size of an unknown workbook's sheet. */
  datatype SheetDraws = SheetDraws(rows: int, columns: int)

  function Kpi(name: string, value: string, status: string): Json {
    JObject(map["name" := JStr(name), "value" := JStr(value), "status" := JStr(status)])
  }

  const QuarterlyWorkbook: Dict := map[
    "sheets" := StrList(["Summary", "Revenue", "Expenses", "Forecasts"]),
    "Summary" := JObject(map[
      "metrics" := JObject(map[
        "total_revenue" := JInt(2850000),
        "total_expenses" := JInt(1247500),
        "net_profit" := JInt(1602500),
        "profit_margin" := JDecimal(562, 1)]),
      "kpis" := JList([
        Kpi("Revenue Growth", "12.5%", "positive"),
        Kpi("Customer Acquisition Cost", "$2,567", "improving"),
        Kpi("Employee Satisfaction", "4.7/5", "excellent")])]),
    "Revenue" := JObject(map[
      "breakdown" := JObject(map[
        "Software Licenses" := JInt(1710000),
        "Consulting Services" := JInt(684000),
        "Hardware Sales" := JInt(342000),
        "Training" := JInt(114000)]),
      "trends" := JStr("18.7% increase over last quarter")])]

  function ExcelFiles(): map<string, Dict> {
    map["Financial_Report_Q4.xlsx" := QuarterlyWorkbook]
  }

  /** `{"sheets": [sheet_name], sheet_name: {...}}`: the later key wins when both are "sheets". */
  function DefaultWorkbook(sheetName: string, draws: SheetDraws): Dict {
    map["sheets" := StrList([sheetName])][sheetName := JObject(map["rows" := JInt(draws.rows), "columns" := JInt(draws.columns)])]
  }

  const ExtractedCharts: seq<Json> := [
    JObject(map["chart_type" := JStr("line"), "title" := JStr("Revenue Trend"), "data_range" := JStr("B2:G15")]),
    JObject(map["chart_type" := JStr("pie"), "title" := JStr("Expense Categories"), "data_range" := JStr("I2:J8")])
  ]

  datatype ExcelResult = ExcelResult(
    filePath: string,
    sheetAnalyzed: string,
    status: string,
    availableSheets: Json,
    data: Json,
    chartsExtracted: seq<Json>)

  function WorkbookData(filePath: string, sheetName: string, draws: SheetDraws): Dict {
    var name := Basename(filePath);
    if name in ExcelFiles() then ExcelFiles()[name] else DefaultWorkbook(sheetName, draws)
  }

  /** `parse_excel_file`; the charts replace the empty list only when asked for. */
  function ParseExcelFile(filePath: string, sheetName: string, includeCharts: bool, draws: SheetDraws): ExcelResult {
    var fileData := WorkbookData(filePath, sheetName, draws);
    ExcelResult(
      filePath, sheetName, "success",
      Get(fileData, "sheets", StrList([sheetName])),
      Get(fileData, sheetName, JObject(map[])),
      if includeCharts then ExtractedCharts else [])
  }

  /** No charts unless asked for, then exactly the line and the pie chart. */
  lemma ExcelCharts(filePath: string, sheetName: string, includeCharts: bool, draws: SheetDraws)
    ensures var charts := ParseExcelFile(filePath, sheetName, includeCharts, draws).chartsExtracted;
      && |charts| == (if includeCharts then 2 else 0)
      && (includeCharts ==> charts[0].fields["chart_type"] == JStr("line") && charts[1].fields["chart_type"] == JStr("pie"))
  {
  }

  /**
   * The quarterly workbook lists four sheets but holds data for two: its
   * "Expenses" and "Forecasts" sheets read as empty.
   */
  lemma ExcelKnownWorkbook(filePath: string, sheetName: string, includeCharts: bool, draws: SheetDraws)
    requires Basename(filePath) == "Financial_Report_Q4.xlsx"
    ensures var r := ParseExcelFile(filePath, sheetName, includeCharts, draws);
      && r.availableSheets == StrList(["Summary", "Revenue", "Expenses", "Forecasts"])
      && (sheetName != "Summary" && sheetName != "Revenue" && sheetName != "sheets" ==> r.data == JObject(map[]))
      && (sheetName == "Summary" ==> r.data.fields["metrics"].fields["net_profit"] == JInt(1602500))
  {
  }

  /**
   * An unknown workbook has only the requested sheet, with its random size;
   * a sheet named "sheets" overwrites the sheet list, which then reads as that
   * sheet's data.
   */
  lemma ExcelUnknownWorkbook(filePath: string, sheetName: string, includeCharts: bool, draws: SheetDraws)
    requires Basename(filePath) != "Financial_Report_Q4.xlsx"
    ensures var r := ParseExcelFile(filePath, sheetName, includeCharts, draws);
      var sheet := JObject(map["rows" := JInt(draws.rows), "columns" := JInt(draws.columns)]);
      && r.data == sheet
      && (sheetName != "sheets" ==> r.availableSheets == StrList([sheetName]))
      && (sheetName == "sheets" ==> r.availableSheets == sheet)
  {
  }

  // ---------------------------------------------------------------------------
  // query_database

  function SalesRow(product: string, total: int, units: int, region: string): Json {
    JObject(map["product_name" := JStr(product), "total_sales" := JInt(total), "units_sold" := JInt(units), "region" := JStr(region)])
  }

  function CustomerRow(id: string, segment: string, lifetimeValue: int, churnRisk: string): Json {
    JObject(map["customer_id" := JStr(id), "segment" := JStr(segment), "lifetime_value" := JInt(lifetimeValue), "churn_risk" := JStr(churnRisk)])
  }

  /** A revenue row; `growth_rate` in tenths of a percent. */
  function RevenueRow(period: string, revenue: int, growthRate: int): Json {
    JObject(map["period" := JStr(period), "revenue" := JInt(revenue), "growth_rate" := JDecimal(growthRate, 1)])
  }

  const SalesTable: seq<Json> := [
    SalesRow("Enterprise Software", 125000, 50, "North America"),
    SalesRow("Consulting Services", 89500, 179, "Europe"),
    SalesRow("Training Package", 34500, 115, "Asia Pacific")
  ]

  const CustomerTable: seq<Json> := [
    CustomerRow("CUST001", "enterprise", 125000, "low"),
    CustomerRow("CUST002", "smb", 45000, "medium"),
    CustomerRow("CUST003", "individual", 2400, "low")
  ]

  const RevenueTable: seq<Json> := [
    RevenueRow("2024-Q4", 2850000, 125),
    RevenueRow("2024-Q3", 2540000, 83),
    RevenueRow("2024-Q2", 2345000, 152)
  ]

  const NoMatchRow: Json := JObject(map["message" := JStr("No matching data found for query")])

  /** The table a query is answered from. */
  datatype QueryRoute = SalesQuery | CustomerQuery | RevenueQuery | Unmatched

  /** Keyword routing on the lower-cased query, in priority order. */
  function Route(query: string): QueryRoute {
    var q := Lower(query);
    if Contains(q, "select") || Contains(q, "sales") || Contains(q, "product") then SalesQuery
    else if Contains(q, "customer") then CustomerQuery
    else if Contains(q, "revenue") then RevenueQuery
    else Unmatched
  }

  function RouteTable(route: QueryRoute): seq<Json>
    requires route != Unmatched
  {
    match route
    case SalesQuery => SalesTable
    case CustomerQuery => CustomerTable
    case RevenueQuery => RevenueTable
  }

  datatype QueryResult = QueryResult(
    query: string,
    databaseType: string,
    rowsReturned: nat,
    limitApplied: int,
    status: string,
    data: seq<Json>,
    cached: bool)

  /** `query_database`; `cached` is the source's random `choice([True, False])`. */
  function QueryDatabase(query: string, databaseType: string, limit: int, cached: bool): QueryResult {
    var route := Route(query);
    var data := if route == Unmatched then [NoMatchRow] else Take(RouteTable(route), limit);
    QueryResult(query, databaseType, |data|, limit, "success", data, cached)
  }

  /**
   * The routing keywords in priority order: a query naming "select", "sales" or
   * "product" reads sales whatever else it names; "customer" wins over "revenue".
   * Routing ignores case.
   */
  lemma QueryRouting(query: string)
    ensures var q := Lower(query);
      && (Route(query) == SalesQuery <==> Contains(q, "select") || Contains(q, "sales") || Contains(q, "product"))
      && (Route(query) == CustomerQuery <==>
            !(Contains(q, "select") || Contains(q, "sales") || Contains(q, "product")) && Contains(q, "customer"))
      && (Route(query) == RevenueQuery <==>
            !(Contains(q, "select") || Contains(q, "sales") || Contains(q, "product") || Contains(q, "customer"))
            && Contains(q, "revenue"))
      && Route(Lower(query)) == Route(query)
  {
    LowerProperties(query);
  }

  /**
   * The rows returned are counted; a matched query returns the first rows of
   * its table, `min(limit, 3)` of them for a non-negative limit, while the
   * no-match row ignores the limit.
   */
  lemma QueryRows(query: string, databaseType: string, limit: int, cached: bool)
    ensures var r := QueryDatabase(query, databaseType, limit, cached);
      && r.rowsReturned == |r.data|
      && r.limitApplied == limit
      && (Route(query) == Unmatched ==> r.data == [NoMatchRow])
      && (Route(query) != Unmatched ==>
            var table := RouteTable(Route(query));
            && r.data == table[..|r.data|]
            && (0 <= limit ==> |r.data| == Min(limit, 3))
            && (limit < 0 ==> |r.data| == Max(0, 3 + limit)))
  {
  }

  // ---------------------------------------------------------------------------
  // generate_financial_report

  datatype ReportTemplate = ReportTemplate(title: string, sections: seq<string>, keyMetrics: Dict)

  /** The templates for the three named report types. */
  function Templates(period: string): map<string, ReportTemplate> {
    var p := Title(period);
    map[
      "sales" := ReportTemplate(
        p + " Sales Performance Report",
        ["Executive Summary", "Sales by Product Category", "Regional Performance", "Sales Rep Rankings", "Trends and Insights"],
        map["total_sales" := JStr("$2,850,000"), "growth_rate" := JStr("12.5%"),
            "top_product" := JStr("Enterprise Software License"), "best_region" := JStr("North America")]),
      "revenue" := ReportTemplate(
        p + " Revenue Analysis Report",
        ["Revenue Overview", "Recurring vs One-time Revenue", "Revenue by Source", "Growth Analysis", "Forecasting"],
        map["total_revenue" := JStr("$2,850,000"), "recurring_revenue" := JStr("$2,100,000"),
            "revenue_growth" := JStr("12.5%"), "forecast_next_period" := JStr("$3,200,000")]),
      "executive_summary" := ReportTemplate(
        p + " Executive Summary",
        ["Financial Highlights", "Key Performance Indicators", "Market Analysis", "Strategic Recommendations"],
        map["net_profit" := JStr("$1,602,500"), "profit_margin" := JStr("56.2%"),
            "customer_satisfaction" := JStr("4.7/5"), "employee_retention" := JStr("94%")])
    ]
  }

  const GenericSections: seq<string> := ["Overview", "Analysis", "Recommendations"]

  function GenericTemplate(reportType: string, period: string): ReportTemplate {
    ReportTemplate(Title(period) + " " + Title(reportType) + " Report", GenericSections,
                   map["status" := JStr("Generated successfully")])
  }

  datatype FinancialReport = FinancialReport(
    reportType: string,
    period: string,
    format: string,
    status: string,
    title: string,
    sections: seq<string>,
    keyMetrics: Dict,
    recipients: seq<string>)

  /** `generate_financial_report` */
  function GenerateFinancialReport(reportType: string, period: string, format: string): FinancialReport {
    var templates := Templates(period);
    var template := if reportType in templates then templates[reportType] else GenericTemplate(reportType, period);
    FinancialReport(reportType, period, format, "success", template.title, template.sections, template.keyMetrics,
                    ["executives@company.com", "finance@company.com"])
  }

  /**
   * An unknown report type gets the generic template: a title naming the type,
   * sections Overview, Analysis and Recommendations, and a status metric.
   */
  lemma ReportFallback(reportType: string, period: string, format: string)
    requires reportType != "sales" && reportType != "revenue" && reportType != "executive_summary"
    ensures var r := GenerateFinancialReport(reportType, period, format);
      && r.title == Title(period) + " " + Title(reportType) + " Report"
      && r.sections == ["Overview", "Analysis", "Recommendations"]
      && r.keyMetrics == map["status" := JStr("Generated successfully")]
  {
  }

  /**
   * The named types get their own sections and four key metrics; every title
   * opens with the period, title-cased, which keeps the period's letters up to case.
   */
  lemma ReportTemplates(reportType: string, period: string, format: string)
    ensures var r := GenerateFinancialReport(reportType, period, format);
      var p := Title(period);
      && |p| <= |r.title| && r.title[..|p|] == p
      && Lower(p) == Lower(period)
      && (reportType == "sales" ==> |r.sections| == 5 && r.sections[0] == "Executive Summary" && |r.keyMetrics| == 4)
      && (reportType == "revenue" ==> |r.sections| == 5 && r.sections[0] == "Revenue Overview" && |r.keyMetrics| == 4)
      && (reportType == "executive_summary" ==> |r.sections| == 4 && r.sections[0] == "Financial Highlights" && |r.keyMetrics| == 4)
  {
    TitleFromCase(period, false);
    var p := Title(period);
    var r := GenerateFinancialReport(reportType, period, format);
    var rest := if reportType == "sales" then " Sales Performance Report"
      else if reportType == "revenue" then " Revenue Analysis Report"
      else if reportType == "executive_summary" then " Executive Summary"
      else " " + Title(reportType) + " Report";
    if reportType == "sales" {
      SalesTemplate(period);
    } else if reportType == "revenue" {
      RevenueTemplate(period);
    } else if reportType == "executive_summary" {
      ExecutiveTemplate(period);
    } else {
      ReportFallback(reportType, period, format);
      assert r.title == p + rest;
    }
    assert (p + rest)[..|p|] == p;
  }

  lemma SalesTemplate(period: string)
    ensures var ts := Templates(period);
      && "sales" in ts && ts["sales"].title == Title(period) + " Sales Performance Report"
      && |ts["sales"].sections| == 5 && ts["sales"].sections[0] == "Executive Summary"
      && |ts["sales"].keyMetrics| == 4
  {
  }

  lemma RevenueTemplate(period: string)
    ensures var ts := Templates(period);
      && "revenue" in ts && ts["revenue"].title == Title(period) + " Revenue Analysis Report"
      && |ts["revenue"].sections| == 5 && ts["revenue"].sections[0] == "Revenue Overview"
      && |ts["revenue"].keyMetrics| == 4
  {
  }

  lemma ExecutiveTemplate(period: string)
    ensures var ts := Templates(period);
      && "executive_summary" in ts && ts["executive_summary"].title == Title(period) + " Executive Summary"
      && |ts["executive_summary"].sections| == 4 && ts["executive_summary"].sections[0] == "Financial Highlights"
      && |ts["executive_summary"].keyMetrics| == 4
  {
  }

  // ---------------------------------------------------------------------------
  // validate_financial_data

  /** The `randint` draws of the validation results, one per figure. */
  datatype ValidationDraws = ValidationDraws(
    completenessScore: int, missingValues: int,
    accuracyScore: int, outliersDetected: int, validationErrors: int, suspiciousTransactions: int,
    consistencyScore: int, formatInconsistencies: int, duplicateRecords: int, crossReferenceErrors: int,
    timelinessScore: int, delayedEntries: int)

  /** The draws within the ranges the source draws them from. */
  predicate ScoresInRange(d: ValidationDraws) {
    && 85 <= d.completenessScore <= 99
    && 90 <= d.accuracyScore <= 98
    && 88 <= d.consistencyScore <= 97
    && 92 <= d.timelinessScore <= 99
  }

  const ValidationRules: seq<string> := ["completeness", "accuracy", "consistency", "timeliness"]

  function ValidationTable(d: ValidationDraws): map<string, Json> {
    map[
      "completeness" := JObject(map[
        "score" := JInt(d.completenessScore), "missing_values" := JInt(d.missingValues),
        "null_percentages" := JObject(map["amount" := JStr("0.5%"), "date" := JStr("0.1%"), "category" := JStr("2.3%")])]),
      "accuracy" := JObject(map[
        "score" := JInt(d.accuracyScore), "outliers_detected" := JInt(d.outliersDetected),
        "validation_errors" := JInt(d.validationErrors), "suspicious_transactions" := JInt(d.suspiciousTransactions)]),
      "consistency" := JObject(map[
        "score" := JInt(d.consistencyScore), "format_inconsistencies" := JInt(d.formatInconsistencies),
        "duplicate_records" := JInt(d.duplicateRecords), "cross_reference_errors" := JInt(d.crossReferenceErrors)]),
      "timeliness" := JObject(map[
        "score" := JInt(d.timelinessScore), "latest_update" := JStr("2024-09-22T14:30:00Z"),
        "data_freshness" := JStr("Within acceptable range"), "delayed_entries" := JInt(d.delayedEntries)])
    ]
  }

  /** `validation_results[rule]["score"]` for a known rule. */
  function Score(d: ValidationDraws): string -> int {
    rule =>
      if rule == "completeness" then d.completenessScore
      else if rule == "accuracy" then d.accuracyScore
      else if rule == "consistency" then d.consistencyScore
      else d.timelinessScore
  }

  /** The Python exceptions the validation can raise. */
  datatype ValidationError = KeyError(key: string) | ZeroDivisionError

  /** The first rule, in request order, the validation results have no entry for. */
  function FirstUnknownRule(rules: seq<string>): (k: nat)
    ensures k <= |rules|
    ensures k < |rules| ==> rules[k] !in ValidationRules
    ensures forall j :: 0 <= j < k ==> rules[j] in ValidationRules
    decreases |rules|
  {
    if rules == [] then 0
    else if rules[0] !in ValidationRules then 0
    else 1 + FirstUnknownRule(rules[1..])
  }

  /**
   * The validation report. `overall_score` is `scoreTotal / ruleCount` rounded
   * to one decimal; the total and the count are kept instead of the float.
   */
  datatype ValidationReport = ValidationReport(
    dataSource: string,
    validationRules: seq<string>,
    scoreTotal: int,
    ruleCount: nat,
    status: string,
    results: map<string, Json>)

  /** `validate_financial_data`: the score sum fails first on an unknown rule, then the average on no rules. */
  function ValidateFinancialData(dataSource: string, rules: seq<string>, d: ValidationDraws): Result<ValidationReport, ValidationError> {
    var k := FirstUnknownRule(rules);
    if k < |rules| then Err(KeyError(rules[k]))
    else if rules == [] then Err(ZeroDivisionError)
    else
      var table := ValidationTable(d);
      Ok(ValidationReport(dataSource, rules, Sum(rules, Score(d)), |rules|, "completed",
                          map rule | rule in rules && rule in table :: table[rule]))
  }

  /**
   * The validation fails on the first unknown rule, fails on an empty rule list,
   * and otherwise reports exactly the requested rules, each with its results.
   */
  lemma ValidationOutcome(dataSource: string, rules: seq<string>, d: ValidationDraws)
    ensures var r := ValidateFinancialData(dataSource, rules, d);
      && (r.Ok? <==> rules != [] && forall i :: 0 <= i < |rules| ==> rules[i] in ValidationRules)
      && (r == Err(ZeroDivisionError) <==> rules == [])
      && (r.Err? && r.error.KeyError? ==>
            exists i :: 0 <= i < |rules| && rules[i] == r.error.key && rules[i] !in ValidationRules
              && forall j :: 0 <= j < i ==> rules[j] in ValidationRules)
      && (r.Ok? ==>
            && (forall rule :: rule in r.value.results <==> rule in rules)
            && (forall rule :: rule in r.value.results ==> r.value.results[rule] == ValidationTable(d)[rule])
            && r.value.ruleCount == |rules|)
  {
    var table := ValidationTable(d);
    assert table.Keys == {"completeness", "accuracy", "consistency", "timeliness"};
  }

  /** With scores in their ranges, the overall score lies between 85 and 99. */
  lemma OverallScoreBounds(dataSource: string, rules: seq<string>, d: ValidationDraws)
    requires ScoresInRange(d)
    ensures var r := ValidateFinancialData(dataSource, rules, d);
      r.Ok? ==> 85 * r.value.ruleCount <= r.value.scoreTotal <= 99 * r.value.ruleCount
  {
    SumBounds(rules, Score(d), 85, 99);
  }

  // ---------------------------------------------------------------------------
  // perform_statistical_analysis

  const CorrelationResult: Json := JObject(map[
    "correlations" := JObject(map[
      "sales_vs_marketing_spend" := JDecimal(78, 2),
      "customer_satisfaction_vs_retention" := JDecimal(85, 2),
      "price_vs_demand" := JDecimal(-62, 2)]),
    "significant_relationships" := StrList([
      "Strong positive correlation between marketing spend and sales",
      "High correlation between customer satisfaction and retention"])])

  const RegressionResult: Json := JObject(map[
    "model_type" := JStr("Multiple Linear Regression"),
    "r_squared" := JDecimal(84, 2),
    "coefficients" := JObject(map[
      "marketing_spend" := JDecimal(23, 1), "product_quality" := JDecimal(17, 1), "customer_service" := JDecimal(12, 1)]),
    "predictions" := JObject(map[
      "next_quarter_sales" := JInt(3200000),
      "confidence_interval" := JList([JInt(2950000), JInt(3450000)])])])

  const ClusteringResult: Json := JObject(map[
    "algorithm" := JStr("K-Means"),
    "clusters_found" := JInt(4),
    "cluster_descriptions" := StrList([
      "High-value enterprise customers", "Growing SMB segment", "Price-sensitive individuals", "Churning customers"]),
    "silhouette_score" := JDecimal(73, 2)])

  const ForecastingResult: Json := JObject(map[
    "model" := JStr("ARIMA"),
    "forecast_horizon" := JStr("6 months"),
    "predicted_values" := JList([JInt(3200000), JInt(3350000), JInt(3180000), JInt(3420000), JInt(3600000), JInt(3750000)]),
    "accuracy_metrics" := JObject(map["mape" := JDecimal(52, 1), "rmse" := JInt(125000)])])

  const AnalysisKinds: seq<string> := ["correlation", "regression", "clustering", "forecasting"]

  function AnalysisTable(): map<string, Json> {
    map["correlation" := CorrelationResult, "regression" := RegressionResult,
        "clustering" := ClusteringResult, "forecasting" := ForecastingResult]
  }

  function IsKnownAnalysis(analysis: string): bool {
    analysis in AnalysisKinds
  }

  function Identity(s: string): string { s }

  datatype StatisticalReport = StatisticalReport(
    dataset: string,
    analysisTypes: seq<string>,
    parameters: Dict,
    status: string,
    resultOrder: seq<string>,
    results: map<string, Json>,
    librariesUsed: seq<string>)

  /**
   * `perform_statistical_analysis`: the results dictionary, its keys in the
   * order they are first requested.
   */
  function PerformStatisticalAnalysis(dataset: string, analysisTypes: seq<string>, parameters: Option<Dict>): StatisticalReport {
    var kept := Filter(analysisTypes, IsKnownAnalysis);
    var table := AnalysisTable();
    StatisticalReport(
      dataset, analysisTypes,
      if parameters.None? then map[] else parameters.value,
      "success",
      KeysInOrder(kept, Identity),
      map a | a in kept && a in table :: table[a],
      ["pandas", "numpy", "scikit-learn", "statsmodels"])
  }

  /**
   * Only the known analyses are reported, each once, in request order, with
   * its canned result; unknown ones are dropped silently, and missing
   * parameters default to an empty dictionary.
   */
  lemma StatisticalSelection(dataset: string, analysisTypes: seq<string>, parameters: Option<Dict>)
    ensures var r := PerformStatisticalAnalysis(dataset, analysisTypes, parameters);
      && (forall a :: a in r.results <==> a in analysisTypes && a in AnalysisKinds)
      && (forall a :: a in r.results ==> r.results[a] == AnalysisTable()[a])
      && (forall a :: a in r.resultOrder <==> a in r.results)
      && Distinct(r.resultOrder)
      && (parameters.None? ==> r.parameters == map[])
      && (parameters.Some? ==> r.parameters == parameters.value)
  {
    var kept := Filter(analysisTypes, IsKnownAnalysis);
    FilterMembers(analysisTypes, IsKnownAnalysis);
    KeysInOrderProperties(kept, Identity);
    assert forall a :: a in KeyList(kept, Identity) <==> a in kept;
  }

  /** Requests for distinct known analyses are reported in exactly the requested order. */
  lemma StatisticalOrder(dataset: string, analysisTypes: seq<string>, parameters: Option<Dict>)
    requires Distinct(analysisTypes)
    requires forall i :: 0 <= i < |analysisTypes| ==> analysisTypes[i] in AnalysisKinds
    ensures PerformStatisticalAnalysis(dataset, analysisTypes, parameters).resultOrder == analysisTypes
  {
    FilterAllOrNone(analysisTypes, IsKnownAnalysis);
    assert KeyList(analysisTypes, Identity) == analysisTypes;
    KeysInOrderDistinct(analysisTypes, Identity);
  }
}
