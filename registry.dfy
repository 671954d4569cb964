/**
 * The four visualisation components and the four data tools the screens refer
 * to by name, and the name-to-component lookup (`componentMap`) that the
 * results handlers of src/App.tsx use to hydrate a component chosen by the
 * generative-UI service.
 */
module Registry {
  import opened Wrappers

  datatype View = TrendView | BreakdownView | RankingView | ActionsView

  datatype Tool = GetRevenueTrend | GetCategoryBreakdown | GetSellerRanking | GetActionItems

  function ComponentName(v: View): string {
    match v
    case TrendView => "TrendView"
    case BreakdownView => "BreakdownView"
    case RankingView => "RankingView"
    case ActionsView => "ActionsView"
  }

  function ToolName(t: Tool): string {
    match t
    case GetRevenueTrend => "getRevenueTrend"
    case GetCategoryBreakdown => "getCategoryBreakdown"
    case GetSellerRanking => "getSellerRanking"
    case GetActionItems => "getActionItems"
  }

  /** The names the lookup table lists explicitly. */
  const KnownComponentNames: set<string> := {"TrendView", "BreakdownView", "RankingView", "ActionsView"}

  /**
   * The members every JavaScript object literal inherits from `Object.prototype`;
   * `componentMap[name]` yields a (truthy) function for each of them.
   */
  const InheritedMemberNames: set<string> := {
    "constructor", "hasOwnProperty", "isPrototypeOf", "propertyIsEnumerable", "toLocaleString",
    "toString", "valueOf", "__proto__", "__defineGetter__", "__defineSetter__",
    "__lookupGetter__", "__lookupSetter__"}

  /** What `componentMap[name]` evaluates to, as the lookup is written. */
  datatype MapEntry = Registered(view: View) | InheritedMember(name: string)

  function ComponentMapAsWritten(name: string): (r: Option<MapEntry>)
    ensures r.Some? <==> name in KnownComponentNames + InheritedMemberNames
    ensures r.Some? && r.value.Registered? ==> ComponentName(r.value.view) == name
    ensures r.Some? && r.value.InheritedMember? ==> name !in KnownComponentNames
  {
    if name == "TrendView" then Some(Registered(TrendView))
    else if name == "BreakdownView" then Some(Registered(BreakdownView))
    else if name == "RankingView" then Some(Registered(RankingView))
    else if name == "ActionsView" then Some(Registered(ActionsView))
    else if name in InheritedMemberNames then Some(InheritedMember(name))
    else None
  }

  /** The as-written lookup accepts a name that is none of the four components. */
  lemma InheritedNameIsAccepted()
    ensures ComponentMapAsWritten("toString").Some?
    ensures "toString" !in KnownComponentNames
  {
  }

  /** The lookup as intended: only the four registered component names resolve. */
  function LookupComponent(name: string): (r: Option<View>)
    ensures r.Some? <==> name in KnownComponentNames
    ensures r.Some? ==> ComponentName(r.value) == name
  {
    if name == "TrendView" then Some(TrendView)
    else if name == "BreakdownView" then Some(BreakdownView)
    else if name == "RankingView" then Some(RankingView)
    else if name == "ActionsView" then Some(ActionsView)
    else None
  }

  /** Every component is found under its own name. */
  lemma LookupRoundTrip(v: View)
    ensures LookupComponent(ComponentName(v)) == Some(v)
  {
  }

  /** The two lookups agree on every name except the inherited members. */
  lemma LookupAgreesOutsideInherited(name: string)
    requires name !in InheritedMemberNames
    ensures ComponentMapAsWritten(name) == if LookupComponent(name).Some? then Some(Registered(LookupComponent(name).value)) else None
  {
  }
}
