/**
 * src/utils/fallbackRenderer.tsx: renders a component directly, without the
 * generative-UI service, from an intent string. The intent is matched after
 * upper-casing; anything unrecognised gets the revenue trend.
 */
module FallbackRenderer {
  import opened Registry
  import opened FlipkartSales
  import opened Analytics
  import ScreenController

  /** The data a tool returns, tagged by the tool. */
  datatype ToolOutput =
    | RevenueTrendData(weeks: seq<WeekRevenue>)
    | CategoryBreakdownData(categories: seq<Shared<Category>>)
    | SellerRankingData(sellers: seq<Seller>)
    | ActionItemsData(actions: ActionItems)

  /** A rendered element: a view given its `data` prop. */
  datatype Rendered = Rendered(view: View, data: ToolOutput)

  /** Calls a tool of the analytics module on the dataset. */
  function Invoke(d: Dataset, t: Tool): ToolOutput {
    match t
    case GetRevenueTrend => RevenueTrendData(RevenueTrend(d))
    case GetCategoryBreakdown => CategoryBreakdownData(CategoryBreakdownOf(d))
    case GetSellerRanking => SellerRankingData(SellerRankingOf(d))
    case GetActionItems => ActionItemsData(ActionItemsOf(d.signals))
  }

  function UpperChar(c: char): char {
    if 'a' <= c <= 'z' then (c as int - 'a' as int + 'A' as int) as char else c
  }

  /** `s.toUpperCase()` on the ASCII letters. */
  function ToUpper(s: string): (r: string)
    ensures |r| == |s|
    ensures forall i :: 0 <= i < |s| ==> r[i] == UpperChar(s[i])
  {
    seq(|s|, i requires 0 <= i < |s| => UpperChar(s[i]))
  }

  /** Upper-casing twice is upper-casing once. */
  lemma ToUpperIdempotent(s: string)
    ensures ToUpper(ToUpper(s)) == ToUpper(s)
  {
  }

  /** `renderFallbackComponent(intent)`. */
  function RenderFallbackComponent(d: Dataset, intent: string): (r: Rendered)
    ensures r.data == Invoke(d, match r.view
                                case TrendView => GetRevenueTrend
                                case BreakdownView => GetCategoryBreakdown
                                case RankingView => GetSellerRanking
                                case ActionsView => GetActionItems)
    ensures ToUpper(intent) !in {"EXPLORE", "UNDERSTAND", "DECIDE", "ACT"} ==> r.view == TrendView
  {
    match ToUpper(intent)
    case "EXPLORE" => Rendered(TrendView, RevenueTrendData(RevenueTrend(d)))
    case "UNDERSTAND" => Rendered(BreakdownView, CategoryBreakdownData(CategoryBreakdownOf(d)))
    case "DECIDE" => Rendered(RankingView, SellerRankingData(SellerRankingOf(d)))
    case "ACT" => Rendered(ActionsView, ActionItemsData(ActionItemsOf(d.signals)))
    case _ => Rendered(TrendView, RevenueTrendData(RevenueTrend(d)))
  }

  /** Matching ignores case: intents equal up to case render the same. */
  lemma CaseInsensitive(d: Dataset, a: string, b: string)
    requires ToUpper(a) == ToUpper(b)
    ensures RenderFallbackComponent(d, a) == RenderFallbackComponent(d, b)
  {
  }

  /**
   * The fallback renders, for every intent string, the component the screen
   * controller's intent table names for it, with the data of the tool the
   * table names.
   */
  lemma AgreesWithIntentTable(d: Dataset, intent: string)
    ensures var entry := ScreenController.IntentEntryFor(ToUpper(intent));
      RenderFallbackComponent(d, intent) == Rendered(entry.component, Invoke(d, entry.tool))
  {
  }

  /** In particular, for each intent button the fallback shows what the service was asked to show. */
  lemma AgreesForEveryButton(d: Dataset, idx: int)
    ensures var entry := ScreenController.IntentEntryFor(ScreenController.IntentLabel(idx));
      RenderFallbackComponent(d, ScreenController.IntentLabel(idx)) == Rendered(entry.component, Invoke(d, entry.tool))
  {
    var l := ScreenController.IntentLabel(idx);
    assert ToUpper(l) == l;
    AgreesWithIntentTable(d, l);
  }
}
