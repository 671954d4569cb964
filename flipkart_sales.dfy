/**
 * The in-memory sales dataset and the record-level helpers of
 * src/data/flipkartSales.ts: seller ranking with revenue shares, the
 * high-risk seller query, the category breakdown and the regional issues.
 *
 * Every helper takes its input as a parameter; `Sales` holds the shipped
 * dataset, which the TypeScript functions use as their default arguments.
 * Decimal fields are `real` (they are only compared), revenues and orders `int`.
 */
module FlipkartSales {
  import opened Wrappers
  import opened Sequences

  // ---- Records

  datatype WeekRevenue = WeekRevenue(week: string, revenue: int, orders: int, growth: real)

  datatype Category = Category(category: string, revenue: int, change: real, orders: int, returnRate: real)

  datatype Region = Region(region: string, revenue: int, change: real, orders: int)

  datatype Seller = Seller(
    seller: string, category: string, region: string, revenue: int,
    fulfillmentRate: real, sellerRating: real, riskScore: real)

  datatype OrderFunnel = OrderFunnel(visits: int, addToCart: int, checkout: int, ordersPlaced: int, conversionRate: real)

  datatype Hub = Hub(hub: string, onTimeDeliveryRate: real, avgDelayDays: real, risk: string)

  datatype Signals = Signals(
    revenueDropDetected: bool, weakestCategory: string, weakestRegion: string,
    highestRiskSeller: string, logisticsRiskHub: string, overallBusinessHealthScore: real)

  datatype Dataset = Dataset(
    revenueByWeek: seq<WeekRevenue>, categoryPerformance: seq<Category>, regionalSales: seq<Region>,
    sellerPerformance: seq<Seller>, orderFunnel: OrderFunnel, logisticsHealth: seq<Hub>, signals: Signals)

  /** A record extended with `revenueShare` (`{ ...x, revenueShare }`): every field of `base` is kept. */
  datatype Shared<T> = Shared(base: T, revenueShare: real)

  /** The shipped dataset. */
  const Sales: Dataset := Dataset(
    [ WeekRevenue("2024-W01", 12500000, 42000, 0.06),
      WeekRevenue("2024-W02", 11800000, 39500, -0.056),
      WeekRevenue("2024-W03", 11450000, 38200, -0.03),
      WeekRevenue("2024-W04", 12100000, 41000, 0.057) ],
    [ Category("Electronics", 5200000, -0.09, 9200, 0.12),
      Category("Fashion", 3800000, 0.04, 16200, 0.18),
      Category("Home & Kitchen", 2100000, 0.02, 9800, 0.08),
      Category("Grocery", 1100000, 0.05, 16800, 0.04) ],
    [ Region("South India", 4200000, -0.07, 14800),
      Region("North India", 3900000, 0.03, 13200),
      Region("West India", 3100000, 0.01, 9800),
      Region("East India", 800000, -0.02, 3200) ],
    [ Seller("CloudRetail Pvt Ltd", "Electronics", "South India", 1800000, 0.91, 3.8, 0.75),
      Seller("StyleHub", "Fashion", "North India", 1450000, 0.96, 4.4, 0.2),
      Seller("HomeEssentials", "Home & Kitchen", "West India", 950000, 0.89, 3.6, 0.8),
      Seller("MobileKart", "Electronics", "North India", 2100000, 0.93, 4.1, 0.35),
      Seller("UrbanTrends", "Fashion", "South India", 1250000, 0.88, 3.5, 0.7),
      Seller("DailyNeeds Store", "Grocery", "East India", 620000, 0.97, 4.6, 0.1),
      Seller("TechZone", "Electronics", "West India", 1320000, 0.87, 3.7, 0.78),
      Seller("KitchenCraft", "Home & Kitchen", "South India", 880000, 0.92, 4.0, 0.3),
      Seller("KidsWorld", "Toys", "North India", 540000, 0.9, 3.9, 0.4),
      Seller("MegaMart Sellers", "Grocery", "West India", 1150000, 0.95, 4.3, 0.25) ],
    OrderFunnel(520000, 132000, 72000, 41000, 0.078),
    [ Hub("Bangalore", 0.94, 0.6, "low"),
      Hub("Delhi NCR", 0.86, 1.9, "high"),
      Hub("Mumbai", 0.9, 1.2, "medium") ],
    Signals(true, "Electronics", "South India", "HomeEssentials", "Delhi NCR", 0.64))

  // ---- Revenue totals and shares

  function SellerRevenue(s: Seller): int { s.revenue }
  function CategoryRevenue(c: Category): int { c.revenue }
  function RegionRevenue(r: Region): int { r.revenue }

  /** `xs.reduce((s, x) => s + x.revenue, 0)`. */
  function RevenueSum<T>(xs: seq<T>, revenue: T -> int): int {
    if |xs| == 0 then 0 else revenue(xs[0]) + RevenueSum(xs[1..], revenue)
  }

  /** The divisor of every share: the revenue sum, or 1 when that sum is 0 (`|| 1`). */
  function ShareTotal<T>(xs: seq<T>, revenue: T -> int): (total: int)
    ensures total != 0
    ensures RevenueSum(xs, revenue) != 0 ==> total == RevenueSum(xs, revenue)
    ensures RevenueSum(xs, revenue) == 0 ==> total == 1
  {
    var sum := RevenueSum(xs, revenue);
    if sum == 0 then 1 else sum
  }

  /** The callback `x => ({ ...x, revenueShare: x.revenue / total })`. */
  function Annotate<T>(revenue: T -> int, total: int): T -> Shared<T>
    requires total != 0
  {
    (x: T) => Shared(x, revenue(x) as real / total as real)
  }

  /** `xs.map(Annotate(revenue, total))`, without the rounding to 4 places. */
  function WithShares<T>(xs: seq<T>, revenue: T -> int): (r: seq<Shared<T>>)
    ensures |r| == |xs|
    ensures forall i :: 0 <= i < |xs| ==>
      r[i].base == xs[i] && r[i].revenueShare == revenue(xs[i]) as real / ShareTotal(xs, revenue) as real
  {
    Map(xs, Annotate(revenue, ShareTotal(xs, revenue)))
  }

  function Bases<T>(r: seq<Shared<T>>): seq<T> {
    Map(r, (x: Shared<T>) => x.base)
  }

  function ShareSum<T>(r: seq<Shared<T>>): real {
    if |r| == 0 then 0.0 else r[0].revenueShare + ShareSum(r[1..])
  }

  lemma {:induction false} QuotientSum<T>(xs: seq<T>, revenue: T -> int, total: int)
    requires total != 0
    ensures ShareSum(Map(xs, Annotate(revenue, total))) == RevenueSum(xs, revenue) as real / total as real
  {
    var f := Annotate(revenue, total);
    if |xs| > 0 {
      QuotientSum(xs[1..], revenue, total);
      assert Map(xs, f)[1..] == Map(xs[1..], f);
      var a, b, t := revenue(xs[0]) as real, RevenueSum(xs[1..], revenue) as real, total as real;
      assert a / t + b / t == (a + b) / t;
    }
  }

  /** The shares of a breakdown add up to 1, or to 0 when every revenue sums to 0. */
  lemma SharesSumToOne<T>(xs: seq<T>, revenue: T -> int)
    ensures ShareSum(WithShares(xs, revenue)) == if RevenueSum(xs, revenue) == 0 then 0.0 else 1.0
  {
    var sum, total := RevenueSum(xs, revenue), ShareTotal(xs, revenue);
    QuotientSum(xs, revenue, total);
    var q := sum as real / total as real;
    assert ShareSum(WithShares(xs, revenue)) == q;
    if sum == 0 {
      assert q == 0.0;
    } else {
      var r := sum as real;
      assert r != 0.0 && q == r / r;
      assert r / r == 1.0;
    }
  }

  /** Dropping the added share gives back the input records, in order. */
  lemma BasesOfShares<T>(xs: seq<T>, revenue: T -> int)
    ensures Bases(WithShares(xs, revenue)) == xs
  {
  }

  // ---- Orders used by the sorts

  /** Comparator `(a, b) => b.revenue - a.revenue`: higher revenue first. */
  function RevenueFirst<T>(revenue: T -> int): (T, T) -> bool {
    (a: T, b: T) => revenue(a) > revenue(b)
  }

  lemma RevenueFirstIsStrict<T(!new)>(revenue: T -> int)
    ensures StrictOrder(RevenueFirst(revenue))
  {
  }

  /** Being sorted by `RevenueFirst` is having non-increasing revenue. */
  lemma SortedByRevenue<T>(s: seq<T>, revenue: T -> int)
    ensures SortedBy(s, RevenueFirst(revenue)) <==>
      forall i, j :: 0 <= i < j < |s| ==> revenue(s[i]) >= revenue(s[j])
  {
    var before := RevenueFirst(revenue);
    assert forall i, j :: 0 <= i < j < |s| ==> (before(s[j], s[i]) <==> revenue(s[j]) > revenue(s[i]));
  }

  /** Comparator `(a, b) => b.riskScore - a.riskScore || a.fulfillmentRate - b.fulfillmentRate`. */
  function RiskFirst(a: Seller, b: Seller): bool {
    a.riskScore > b.riskScore || (a.riskScore == b.riskScore && a.fulfillmentRate < b.fulfillmentRate)
  }

  lemma RiskFirstIsStrict()
    ensures StrictOrder(RiskFirst)
  {
  }

  // ---- getSellerRanking

  function SharedRevenue<T>(revenue: T -> int): Shared<T> -> int {
    (x: Shared<T>) => revenue(x.base)
  }

  /** Sellers with their revenue share, highest revenue first. */
  function SellerRanking(sellers: seq<Seller>): (r: seq<Shared<Seller>>)
    ensures |r| == |sellers|
    ensures multiset(r) == multiset(WithShares(sellers, SellerRevenue))
    ensures multiset(Bases(r)) == multiset(sellers)
    ensures forall i :: 0 <= i < |r| ==>
      r[i].revenueShare == r[i].base.revenue as real / ShareTotal(sellers, SellerRevenue) as real
    ensures forall i, j :: 0 <= i < j < |r| ==> r[i].base.revenue >= r[j].base.revenue
  {
    var r := SortBy(WithShares(sellers, SellerRevenue), RevenueFirst(SharedRevenue(SellerRevenue)));
    RankingFacts(sellers, SellerRevenue, r);
    r
  }

  /** What ranking a share-annotated sequence by revenue yields, for any record type. */
  lemma RankingFacts<T(!new)>(xs: seq<T>, revenue: T -> int, r: seq<Shared<T>>)
    requires r == SortBy(WithShares(xs, revenue), RevenueFirst(SharedRevenue(revenue)))
    ensures multiset(Bases(r)) == multiset(xs)
    ensures forall i :: 0 <= i < |r| ==>
      r[i].revenueShare == revenue(r[i].base) as real / ShareTotal(xs, revenue) as real
    ensures forall i, j :: 0 <= i < j < |r| ==> revenue(r[i].base) >= revenue(r[j].base)
  {
    var shared := WithShares(xs, revenue);
    var before := RevenueFirst(SharedRevenue(revenue));
    RevenueFirstIsStrict(SharedRevenue(revenue));
    SortBySorted(shared, before);
    MapPermutation(r, shared, (x: Shared<T>) => x.base);
    BasesOfShares(xs, revenue);
    forall i | 0 <= i < |r|
      ensures r[i].revenueShare == revenue(r[i].base) as real / ShareTotal(xs, revenue) as real
    {
      assert r[i] in multiset(shared);
      var k :| 0 <= k < |shared| && shared[k] == r[i];
    }
    SortedByRevenue(r, SharedRevenue(revenue));
    assert forall x :: SharedRevenue(revenue)(x) == revenue(x.base);
  }

  // ---- getHighRiskSellers

  /** The `options` object: an absent field takes its default. */
  datatype RiskOptions = RiskOptions(
    riskThreshold: Option<real>, fulfillmentThreshold: Option<real>, ratingThreshold: Option<real>)

  datatype Thresholds = Thresholds(risk: real, fulfillment: real, rating: real)

  const DefaultRiskThreshold: real := 0.6
  const DefaultFulfillmentThreshold: real := 0.9
  const DefaultRatingThreshold: real := 3.8

  function ResolveThresholds(options: RiskOptions): (t: Thresholds)
    ensures options.riskThreshold.None? ==> t.risk == DefaultRiskThreshold
    ensures options.riskThreshold.Some? ==> t.risk == options.riskThreshold.value
    ensures options.fulfillmentThreshold.None? ==> t.fulfillment == DefaultFulfillmentThreshold
    ensures options.fulfillmentThreshold.Some? ==> t.fulfillment == options.fulfillmentThreshold.value
    ensures options.ratingThreshold.None? ==> t.rating == DefaultRatingThreshold
    ensures options.ratingThreshold.Some? ==> t.rating == options.ratingThreshold.value
  {
    Thresholds(
      options.riskThreshold.GetOr(DefaultRiskThreshold),
      options.fulfillmentThreshold.GetOr(DefaultFulfillmentThreshold),
      options.ratingThreshold.GetOr(DefaultRatingThreshold))
  }

  /** The three-way risk test: high risk score, or low fulfilment, or low rating. */
  predicate IsHighRisk(s: Seller, t: Thresholds) {
    s.riskScore >= t.risk || s.fulfillmentRate < t.fulfillment || s.sellerRating < t.rating
  }

  /** The high-risk sellers, riskiest first, ties by lower fulfilment rate first. */
  function HighRiskSellers(sellers: seq<Seller>, options: RiskOptions): (r: seq<Seller>)
    ensures forall x :: multiset(r)[x] == if IsHighRisk(x, ResolveThresholds(options)) then multiset(sellers)[x] else 0
    ensures forall x :: x in r <==> x in sellers && IsHighRisk(x, ResolveThresholds(options))
    ensures forall i, j :: 0 <= i < j < |r| ==>
      r[i].riskScore >= r[j].riskScore &&
      (r[i].riskScore == r[j].riskScore ==> r[i].fulfillmentRate <= r[j].fulfillmentRate)
  {
    var t := ResolveThresholds(options);
    var risky := Filter(sellers, (s: Seller) => IsHighRisk(s, t));
    RiskFirstIsStrict();
    SortBySorted(risky, RiskFirst);
    SortBy(risky, RiskFirst)
  }

  // ---- getCategoryBreakdown

  /** The categories in input order, each with its share of the total revenue. */
  function CategoryBreakdown(categories: seq<Category>): (r: seq<Shared<Category>>)
    ensures |r| == |categories|
    ensures forall i :: 0 <= i < |r| ==> r[i].base == categories[i]
    ensures forall i :: 0 <= i < |r| ==>
      r[i].revenueShare == categories[i].revenue as real / ShareTotal(categories, CategoryRevenue) as real
  {
    WithShares(categories, CategoryRevenue)
  }

  // ---- getRegionalIssues

  datatype Note = Declining | Stable | IdentifiedBySignal

  /** A region record extended with `note` (`{ ...r, note }`). */
  datatype RegionIssue = RegionIssue(base: Region, note: Note)

  predicate IsDeclining(r: Region) { r.change < 0.0 }

  /** Index of the first region called `name`, or `|regions|` when there is none. */
  function FirstNamed(regions: seq<Region>, name: string): (k: nat)
    ensures k <= |regions|
    ensures forall i :: 0 <= i < k ==> regions[i].region != name
    ensures k < |regions| ==> regions[k].region == name
  {
    if |regions| == 0 || regions[0].region == name then 0 else 1 + FirstNamed(regions[1..], name)
  }

  /** `regions.find(r => r.region === name)`: the first region with that name, if any. */
  function FindRegion(regions: seq<Region>, name: string): (found: Option<Region>)
    ensures found.None? <==> forall x :: x in regions ==> x.region != name
    ensures found.Some? ==> found.value == regions[FirstNamed(regions, name)] && found.value.region == name
  {
    var k := FirstNamed(regions, name);
    if k < |regions| then Some(regions[k]) else None
  }

  /** The declining regions in input order, each tagged as by the map step of `getRegionalIssues`. */
  function DecliningIssues(regions: seq<Region>): (issues: seq<RegionIssue>)
    ensures var d := Filter(regions, IsDeclining);
      |issues| == |d| && forall i :: 0 <= i < |d| ==> issues[i] == RegionIssue(d[i], Declining)
  {
    var d := Filter(regions, IsDeclining);
    assert forall i :: 0 <= i < |d| ==> d[i] in d;
    Map(d, (r: Region) => RegionIssue(r, if r.change < 0.0 then Declining else Stable))
  }

  /** A name is among the declining issues exactly when it is among the declining regions. */
  lemma DecliningIssueNamed(regions: seq<Region>, name: string)
    ensures (exists i :: i in DecliningIssues(regions) && i.base.region == name) <==>
            (exists x :: x in Filter(regions, IsDeclining) && x.region == name)
  {
    var d, issues := Filter(regions, IsDeclining), DecliningIssues(regions);
    forall x | x in d ensures RegionIssue(x, Declining) in issues {
      var k :| 0 <= k < |d| && d[k] == x;
      assert issues[k] == RegionIssue(x, Declining);
    }
  }

  /**
   * Every declining region, in input order, tagged `Declining`; then, if the
   * signals name a weakest region that occurs in the input and is not already
   * listed, that region (its first occurrence) tagged `IdentifiedBySignal`.
   */
  function RegionalIssues(regions: seq<Region>, signals: Signals): (r: seq<RegionIssue>)
    ensures |Filter(regions, IsDeclining)| <= |r| <= |Filter(regions, IsDeclining)| + 1
    ensures forall i :: 0 <= i < |Filter(regions, IsDeclining)| ==>
      r[i] == RegionIssue(Filter(regions, IsDeclining)[i], Declining)
    ensures |r| == |Filter(regions, IsDeclining)| + 1 <==>
      && signals.weakestRegion != ""
      && (exists x :: x in regions && x.region == signals.weakestRegion)
      && !(exists x :: x in Filter(regions, IsDeclining) && x.region == signals.weakestRegion)
    ensures |r| == |Filter(regions, IsDeclining)| + 1 ==>
      r[|r| - 1] == RegionIssue(regions[FirstNamed(regions, signals.weakestRegion)], IdentifiedBySignal) &&
      r[|r| - 1].base.region == signals.weakestRegion
  {
    var issues := DecliningIssues(regions);
    DecliningIssueNamed(regions, signals.weakestRegion);
    if signals.weakestRegion != "" then
      match FindRegion(regions, signals.weakestRegion)
      case Some(found) =>
        if exists i :: i in issues && i.base.region == found.region then issues
        else issues + [RegionIssue(found, IdentifiedBySignal)]
      case None => issues
    else issues
  }

  /** No two regions share a name. */
  predicate DistinctRegions(regions: seq<Region>) {
    forall i, j :: 0 <= i < j < |regions| ==> regions[i].region != regions[j].region
  }

  predicate DistinctIssues(issues: seq<RegionIssue>) {
    forall i, j :: 0 <= i < j < |issues| ==> issues[i].base.region != issues[j].base.region
  }

  lemma ConsDistinct(x: Region, rest: seq<Region>)
    requires DistinctRegions(rest)
    requires forall y :: y in rest ==> y.region != x.region
    ensures DistinctRegions([x] + rest)
  {
    var s := [x] + rest;
    forall i, j | 0 <= i < j < |s| ensures s[i].region != s[j].region {
      assert s[j] == rest[j - 1];
      if i > 0 { assert s[i] == rest[i - 1]; }
    }
  }

  lemma {:induction false} FilterKeepsDistinct(regions: seq<Region>, p: Region -> bool)
    requires DistinctRegions(regions)
    ensures DistinctRegions(Filter(regions, p))
  {
    if |regions| > 0 {
      var x, rest := regions[0], regions[1..];
      assert DistinctRegions(rest);
      FilterKeepsDistinct(rest, p);
      if p(x) {
        forall y | y in rest ensures y.region != x.region {
          var k :| 0 <= k < |rest| && rest[k] == y;
          assert regions[k + 1] == y;
        }
        ConsDistinct(x, Filter(rest, p));
        assert Filter(regions, p) == [x] + Filter(rest, p);
      }
    }
  }

  /** The signal never duplicates a region: distinct input names give distinct issue names. */
  lemma RegionalIssuesDistinct(regions: seq<Region>, signals: Signals)
    requires DistinctRegions(regions)
    ensures DistinctIssues(RegionalIssues(regions, signals))
  {
    var d := Filter(regions, IsDeclining);
    FilterKeepsDistinct(regions, IsDeclining);
    var r := RegionalIssues(regions, signals);
    forall i, j | 0 <= i < j < |r| ensures r[i].base.region != r[j].base.region {
      if j == |d| {
        assert d[i] in d;
      }
    }
  }
}
