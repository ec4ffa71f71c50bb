/**
 * The records the financial service returns. Money (`Decimal`) is held in
 * hundredths (cents); the float rates of the data are held as integers in the
 * fixed units each field names. Timestamps are not part of these records.
 */
module FinancialModels {
  import opened Wrappers
  import opened Json

  /** `TrendDirection` */
  datatype TrendDirection = Up | Down | Stable | Volatile {
    function Value(): string {
      match this
      case Up => "up"
      case Down => "down"
      case Stable => "stable"
      case Volatile => "volatile"
    }
  }

  /** `SalesReport`; `profitMargin` in hundredths (0.75 is 75). */
  datatype SalesReport = SalesReport(
    productId: string,
    productName: string,
    category: string,
    salesAmount: int,
    unitsSold: int,
    revenue: int,
    profitMargin: int,
    region: string,
    salesRep: string)

  /** `RevenueData`; `growthRate` in tenths of a percent (12.5 is 125). */
  datatype RevenueData = RevenueData(
    period: string,
    revenue: int,
    recurringRevenue: int,
    oneTimeRevenue: int,
    growthRate: int,
    revenueSource: string,
    department: Option<string>)

  /** `EmployeePerformance`; `performanceScore` in tenths (4.7 is 47). */
  datatype EmployeePerformance = EmployeePerformance(
    employeeId: string,
    employeeName: string,
    department: string,
    role: string,
    performanceScore: int,
    salesTarget: Option<int>,
    salesAchieved: Option<int>,
    commission: Option<int>,
    reviewPeriod: string)

  /** `InventoryData` */
  datatype InventoryData = InventoryData(
    itemId: string,
    itemName: string,
    category: string,
    currentStock: int,
    reorderLevel: int,
    unitCost: int,
    retailPrice: int,
    supplier: string,
    location: string)

  /** `CustomerData` */
  datatype CustomerData = CustomerData(
    customerId: string,
    acquisitionCost: int,
    lifetimeValue: int,
    segment: string,
    region: string,
    totalOrders: int,
    avgOrderValue: int,
    churnRisk: string)

  /** `FinancialMetrics`; `value` and `benchmark` in hundredths (12.5 is 1250). */
  datatype FinancialMetrics = FinancialMetrics(
    metricName: string,
    value: int,
    period: string,
    calculationMethod: string,
    benchmark: Option<int>,
    trend: TrendDirection,
    metadata: Dict)
}
