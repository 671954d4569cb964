/**
 * The tool functions of src/tools/analytics.ts that the generative UI calls.
 * The TypeScript functions read the module-level dataset; here each takes the
 * `Dataset` (or the part of it it reads) as a parameter, and
 * `FlipkartSales.Sales` is the one they are called with.
 */
module Analytics {
  import opened Wrappers
  import opened Sequences
  import opened FlipkartSales

  // ---- EXPLORE

  /** `getRevenueTrend`: the weekly series as stored. */
  function RevenueTrend(d: Dataset): seq<WeekRevenue> {
    d.revenueByWeek
  }

  /** `getOrderFunnel`: the funnel as stored. */
  function OrderFunnelOf(d: Dataset): OrderFunnel {
    d.orderFunnel
  }

  // ---- UNDERSTAND

  datatype WeekChange = WeekChange(currentWeek: string, revenueChange: int, orderChange: int, growth: real)

  /** `getWeekChange`: the change from the second-to-last week to the last; none before two weeks exist. */
  function WeekOverWeek(weeks: seq<WeekRevenue>): (r: Option<WeekChange>)
    ensures r.None? <==> |weeks| < 2
    ensures r.Some? ==>
      var last, prev := weeks[|weeks| - 1], weeks[|weeks| - 2];
      && r.value.currentWeek == last.week
      && prev.revenue + r.value.revenueChange == last.revenue
      && prev.orders + r.value.orderChange == last.orders
      && r.value.growth == last.growth
  {
    if |weeks| < 2 then None
    else
      var last, prev := weeks[|weeks| - 1], weeks[|weeks| - 2];
      Some(WeekChange(last.week, last.revenue - prev.revenue, last.orders - prev.orders, last.growth))
  }

  /** Only the last two weeks matter: recording a new week makes it the current one. */
  lemma WeekOverWeekAppend(weeks: seq<WeekRevenue>, w: WeekRevenue)
    requires |weeks| >= 1
    ensures WeekOverWeek(weeks + [w]) ==
      Some(WeekChange(w.week, w.revenue - weeks[|weeks| - 1].revenue, w.orders - weeks[|weeks| - 1].orders, w.growth))
  {
  }

  /** `getCategoryBreakdown`: the same transform as the data module's, on the stored categories. */
  function CategoryBreakdownOf(d: Dataset): (r: seq<Shared<Category>>)
    ensures r == FlipkartSales.CategoryBreakdown(d.categoryPerformance)
  {
    WithShares(d.categoryPerformance, CategoryRevenue)
  }

  /** `getRegionalBreakdown`: the regions in stored order, each with its share of the total revenue. */
  function RegionalBreakdown(d: Dataset): (r: seq<Shared<Region>>)
    ensures |r| == |d.regionalSales|
    ensures forall i :: 0 <= i < |r| ==> r[i].base == d.regionalSales[i]
    ensures forall i :: 0 <= i < |r| ==>
      r[i].revenueShare == d.regionalSales[i].revenue as real / ShareTotal(d.regionalSales, RegionRevenue) as real
  {
    WithShares(d.regionalSales, RegionRevenue)
  }

  // ---- DECIDE / COMPARE

  /** `getSellerRanking`: a copy of the sellers, highest revenue first (no shares here). */
  function SellerRankingOf(d: Dataset): (r: seq<Seller>)
    ensures multiset(r) == multiset(d.sellerPerformance)
    ensures forall i, j :: 0 <= i < j < |r| ==> r[i].revenue >= r[j].revenue
  {
    RevenueFirstIsStrict(SellerRevenue);
    SortBySorted(d.sellerPerformance, RevenueFirst(SellerRevenue));
    SortedByRevenue(SortBy(d.sellerPerformance, RevenueFirst(SellerRevenue)), SellerRevenue);
    SortBy(d.sellerPerformance, RevenueFirst(SellerRevenue))
  }

  /** `getCategoryRanking`: a copy of the categories, highest revenue first. */
  function CategoryRanking(d: Dataset): (r: seq<Category>)
    ensures multiset(r) == multiset(d.categoryPerformance)
    ensures forall i, j :: 0 <= i < j < |r| ==> r[i].revenue >= r[j].revenue
  {
    RevenueFirstIsStrict(CategoryRevenue);
    SortBySorted(d.categoryPerformance, RevenueFirst(CategoryRevenue));
    SortedByRevenue(SortBy(d.categoryPerformance, RevenueFirst(CategoryRevenue)), CategoryRevenue);
    SortBy(d.categoryPerformance, RevenueFirst(CategoryRevenue))
  }

  /** The seller ranking is stable: sellers already stored in revenue order come back as they are. */
  lemma RankingOfRankedIsIdentity(d: Dataset)
    requires forall i, j :: 0 <= i < j < |d.sellerPerformance| ==>
      d.sellerPerformance[i].revenue >= d.sellerPerformance[j].revenue
    ensures SellerRankingOf(d) == d.sellerPerformance
  {
    SortedByRevenue(d.sellerPerformance, SellerRevenue);
    SortByKeepsSorted(d.sellerPerformance, RevenueFirst(SellerRevenue));
  }

  // ---- DECIDE / RISK

  /**
   * `getHighRiskSellers(riskThreshold = 0.6, fulfillmentThreshold = 0.9, ratingThreshold = 3.8)`:
   * exactly the sellers passing the three-way test, in stored order (no sort here).
   */
  function HighRiskSellersOf(
    d: Dataset, riskThreshold: Option<real>, fulfillmentThreshold: Option<real>, ratingThreshold: Option<real>
  ): (r: seq<Seller>)
    ensures var t := ResolveThresholds(RiskOptions(riskThreshold, fulfillmentThreshold, ratingThreshold));
      forall x :: multiset(r)[x] == if IsHighRisk(x, t) then multiset(d.sellerPerformance)[x] else 0
    ensures SubsequenceOf(r, d.sellerPerformance)
  {
    var t := ResolveThresholds(RiskOptions(riskThreshold, fulfillmentThreshold, ratingThreshold));
    Filter(d.sellerPerformance, (s: Seller) => IsHighRisk(s, t))
  }

  /** The data module's variant returns the same sellers, merely sorted by risk. */
  lemma HighRiskVariantsAgree(d: Dataset, options: RiskOptions)
    ensures FlipkartSales.HighRiskSellers(d.sellerPerformance, options) ==
      SortBy(HighRiskSellersOf(d, options.riskThreshold, options.fulfillmentThreshold, options.ratingThreshold), RiskFirst)
  {
  }

  /** `getRegionalIssues`: exactly the regions whose change is negative, in stored order. */
  function RegionalIssuesOf(d: Dataset): (r: seq<Region>)
    ensures forall x :: multiset(r)[x] == if x.change < 0.0 then multiset(d.regionalSales)[x] else 0
    ensures SubsequenceOf(r, d.regionalSales)
  {
    Filter(d.regionalSales, IsDeclining)
  }

  predicate IsLogisticsRisk(h: Hub) { h.risk != "low" }

  /** `getLogisticsRisks`: exactly the hubs whose risk is not "low", in stored order. */
  function LogisticsRisks(d: Dataset): (r: seq<Hub>)
    ensures forall x :: multiset(r)[x] == if x.risk != "low" then multiset(d.logisticsHealth)[x] else 0
    ensures SubsequenceOf(r, d.logisticsHealth)
  {
    Filter(d.logisticsHealth, IsLogisticsRisk)
  }

  // ---- DECIDE / ACT

  datatype PrioritySignals = PrioritySignals(
    weakestCategory: string, weakestRegion: string, highestRiskSeller: string, logisticsRiskHub: string)

  /** `getPrioritySignals`: the four "weakest / riskiest" names of the signals. */
  function PrioritySignalsOf(s: Signals): (r: PrioritySignals)
    ensures r.weakestCategory == s.weakestCategory && r.weakestRegion == s.weakestRegion
    ensures r.highestRiskSeller == s.highestRiskSeller && r.logisticsRiskHub == s.logisticsRiskHub
  {
    PrioritySignals(s.weakestCategory, s.weakestRegion, s.highestRiskSeller, s.logisticsRiskHub)
  }

  datatype ActionItems = ActionItems(
    revenueDropDetected: bool, focusCategory: string, focusRegion: string,
    fixSeller: string, checkLogisticsHub: string, businessHealthScore: real)

  /** `getActionItems`: the signals renamed as actions, field by field. */
  function ActionItemsOf(s: Signals): (r: ActionItems)
    ensures r.revenueDropDetected == s.revenueDropDetected
    ensures r.focusCategory == s.weakestCategory && r.focusRegion == s.weakestRegion
    ensures r.fixSeller == s.highestRiskSeller && r.checkLogisticsHub == s.logisticsRiskHub
    ensures r.businessHealthScore == s.overallBusinessHealthScore
  {
    ActionItems(
      s.revenueDropDetected, s.weakestCategory, s.weakestRegion,
      s.highestRiskSeller, s.logisticsRiskHub, s.overallBusinessHealthScore)
  }

  /** Reads the signals back from the action items. */
  function SignalsOf(a: ActionItems): Signals {
    Signals(a.revenueDropDetected, a.focusCategory, a.focusRegion, a.fixSeller, a.checkLogisticsHub, a.businessHealthScore)
  }

  /** The renaming loses nothing: the signals are recovered from the action items. */
  lemma ActionItemsRoundTrip(s: Signals)
    ensures SignalsOf(ActionItemsOf(s)) == s
  {
  }

  /** On the shipped data the week-over-week change exists and is the W03 to W04 step. */
  lemma ShippedWeekChange()
    ensures WeekOverWeek(RevenueTrend(Sales)) == Some(WeekChange("2024-W04", 650000, 2800, 0.057))
  {
  }
}
