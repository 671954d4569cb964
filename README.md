# thinkflow AI — a Dafny model of the analytics and the screen controller

thinkflow AI is a demo front end. The user picks one of four intents: EXPLORE, UNDERSTAND,
DECIDE or ACT. A generative-UI service is asked to call an analytics tool and render one of
four visualisations. The analytics run over a small e-commerce dataset: weekly revenue,
categories, regions, sellers, an order funnel, logistics hubs and derived "signals".

This project models four parts of the program:

- `flipkart_sales.dfy` (module `FlipkartSales`) covers the record shapes, the shipped dataset and the
  parameterised helpers of `src/data/flipkartSales.ts`:
  - the seller ranking with revenue shares;
  - the high-risk filter with its two-key sort;
  - the category breakdown;
  - the regional issues, which filter declining regions and then append the region the
    signals name.
- `analytics.ts` tools are in `analytics.dfy` (module `Analytics`). Each takes the dataset as a
  parameter instead of reading module-level constants.
- `screen_controller.dfy` (module `ScreenController`) covers the HOME / THINKING / RESULTS / FOCUS
  controller of `src/App.tsx`:
  - `Step` is the controller as a function of state and event;
  - class `App` holds the same state in mutable fields, with one method per handler or SDK outcome;
  - each method is proved to perform `Step` and to keep the invariant `WellFormed`.
- `fallback_renderer.dfy` (module `FallbackRenderer`) covers the case-insensitive intent dispatch of
  `src/utils/fallbackRenderer.tsx`, proved to agree with the intent table of `src/App.tsx`.

Three supporting files:

- `sequences.dfy` holds `filter`, `map` and the stable `sort` of JavaScript arrays, written once
  generically. The sort is an insertion sort, stable like `Array.prototype.sort`, and comes with
  permutation and sortedness lemmas.
- `registry.dfy` holds the four views, the four tools and the name → component lookup.
- `wrappers.dfy` holds `Option`.

Modelling choices:

- Revenues and order counts are `int`.
- Rates, scores and growth figures are `real`; the code only compares them.
- Strings are `seq<char>`.
- An optional argument with a default is an `Option` that resolves to the default when `None`.

The SDK is not modelled. What it reports enters as event or method parameters:

- the generation stage;
- the thread's messages;
- the value a send resolves with;
- the message a failed send rejects with;
- whether the API key is configured.

What the app asks of the SDK (`sendThreadMessage`, `cancel`) is appended to an `outbox` sequence.
That makes "nothing is sent" a statement about the state.

## Model

| member | source | states |
|---|---|---|
| Sequences.Filter | src/tools/analytics.ts:89-94 | `filter` keeps exactly the elements satisfying the predicate, each as often as in the input, as an in-order subsequence |
| Sequences.FilterConcat | src/data/flipkartSales.ts:108-109 | filtering a concatenation is the concatenation of the filtered parts (order is never changed across a split) |
| Sequences.SortBy | src/data/flipkartSales.ts:75 | the comparator sort returns a permutation of its input (same length, same multiset) |
| Sequences.SortBySorted | src/data/flipkartSales.ts:90 | under a strict order, no element of the sorted result comes before an element to its left |
| Sequences.SortByKeepsSorted | src/tools/analytics.ts:71 | the sort is stable in the sense that an input already in order comes back unchanged |
| Sequences.SortByIdempotent | src/data/flipkartSales.ts:90 | sorting a sorted result again changes nothing |
| FlipkartSales.ShareTotal | src/data/flipkartSales.ts:72 | the share divisor is the revenue sum when that is non-zero and exactly 1 when it is 0, so it is never 0 |
| FlipkartSales.WithShares | src/data/flipkartSales.ts:96-101 | the shared map keeps length and order, copies each record and adds revenue/total as its share |
| FlipkartSales.SharesSumToOne | src/data/flipkartSales.ts:96-102 | the shares of a breakdown add up to exactly 1, or to 0 when all revenues sum to 0 |
| FlipkartSales.BasesOfShares | src/data/flipkartSales.ts:98-101 | removing the added share gives back the input records unchanged and in order |
| FlipkartSales.RevenueFirstIsStrict | src/data/flipkartSales.ts:75 | the revenue comparator is a strict order (asymmetric, transitive) |
| FlipkartSales.SortedByRevenue | src/data/flipkartSales.ts:75 | being sorted by the revenue comparator is the same as having non-increasing revenue |
| FlipkartSales.RiskFirstIsStrict | src/data/flipkartSales.ts:90 | the two-key risk comparator is a strict order |
| FlipkartSales.SellerRanking | src/data/flipkartSales.ts:71-76 | `getSellerRanking` returns the share-annotated sellers permuted, each original record present as often as in the input, each share revenue/total, revenue non-increasing |
| FlipkartSales.RankingFacts | src/data/flipkartSales.ts:73-75 | ranking share-annotated records of any type gives back the input records as a multiset, keeps each share, orders by revenue |
| FlipkartSales.ResolveThresholds | src/data/flipkartSales.ts:86 | an absent option takes its default 0.6, 0.9 or 3.8; a given one is used as is |
| FlipkartSales.HighRiskSellers | src/data/flipkartSales.ts:82-91 | keeps exactly the sellers with riskScore >= rt, fulfillmentRate < ft or sellerRating < rat (with multiplicity), riskScore non-increasing and ties by fulfillmentRate non-decreasing |
| FlipkartSales.CategoryBreakdown | src/data/flipkartSales.ts:96-102 | same length and order as the input; element i is category i with share revenue/total |
| FlipkartSales.FirstNamed | src/data/flipkartSales.ts:117 | the index of the first region with the name, or the length when none has it |
| FlipkartSales.FindRegion | src/data/flipkartSales.ts:117 | `find` returns none iff no region has the name, otherwise the first region with it |
| FlipkartSales.DecliningIssues | src/data/flipkartSales.ts:108-113 | the declining regions in input order, each tagged declining |
| FlipkartSales.RegionalIssues | src/data/flipkartSales.ts:107-124 | every declining region in order, tagged declining; one more element iff the weakest region is named, occurs in the input and is not already listed; that element is its first occurrence, tagged identified-by-signal |
| FlipkartSales.RegionalIssuesDistinct | src/data/flipkartSales.ts:116-121 | when region names are distinct in the input, no region name occurs twice among the issues |
| Analytics.WeekOverWeek | src/tools/analytics.ts:30-41 | no result iff fewer than two weeks; otherwise the last week's name, revenue and order deltas from the week before, and the last growth |
| Analytics.WeekOverWeekAppend | src/tools/analytics.ts:31-40 | after recording a new week, the change is from the previous last week to the new one |
| Analytics.ShippedWeekChange | src/tools/analytics.ts:30-41 | on the shipped data the change is W04: +650000 revenue, +2800 orders, growth 0.057 |
| Analytics.CategoryBreakdownOf | src/tools/analytics.ts:48-54 | the analytics breakdown equals the data module's `getCategoryBreakdown` on the stored categories |
| Analytics.RegionalBreakdown | src/tools/analytics.ts:57-63 | same length and order as the regions; each share is revenue/total with the zero-sum fallback |
| Analytics.SellerRankingOf | src/tools/analytics.ts:70-72 | a permutation of the sellers with non-increasing revenue |
| Analytics.CategoryRanking | src/tools/analytics.ts:75-77 | a permutation of the categories with non-increasing revenue |
| Analytics.RankingOfRankedIsIdentity | src/tools/analytics.ts:71 | sellers already stored in revenue order are returned unchanged |
| Analytics.HighRiskSellersOf | src/tools/analytics.ts:84-95 | exactly the sellers passing the three-way test under the defaulted thresholds, in input order, with no sort |
| Analytics.HighRiskVariantsAgree | src/tools/analytics.ts:84-95 | the data module's `getHighRiskSellers` is the analytics filter followed by the risk sort |
| Analytics.RegionalIssuesOf | src/tools/analytics.ts:98-100 | exactly the regions with change < 0, in input order |
| Analytics.LogisticsRisks | src/tools/analytics.ts:103-105 | exactly the hubs whose risk is not "low", in input order |
| Analytics.PrioritySignalsOf | src/tools/analytics.ts:115-122 | the four weakest/riskiest names of the signals |
| Analytics.ActionItemsOf | src/tools/analytics.ts:131-140 | each action field is the corresponding signals field |
| Analytics.ActionItemsRoundTrip | src/tools/analytics.ts:131-140 | the renaming loses nothing: the signals are recovered from the action items |
| Registry.ComponentMapAsWritten | src/App.tsx:87-94 | the lookup as written succeeds for the four component names and for every inherited object member |
| Registry.InheritedNameIsAccepted | src/App.tsx:94-96 | the name "toString" is not a component, yet the lookup as written succeeds for it |
| Registry.LookupComponent | src/App.tsx:189-198 | the intended lookup succeeds iff the name is one of the four components, and returns the component of that name |
| Registry.LookupRoundTrip | src/App.tsx:189-194 | every component is found under its own name |
| Registry.LookupAgreesOutsideInherited | src/App.tsx:196-198 | the intended and as-written lookups agree on every name that is not an inherited member |
| ScreenController.IntentLabel | src/App.tsx:134 | index 0..3 gives its label; any other index gives EXPLORE |
| ScreenController.IntentTable | src/App.tsx:134-156 | each intent index selects its fixed (component, tool) pair; other indices select EXPLORE's |
| ScreenController.Instruction | src/App.tsx:159 | the message names the tool and the component; the user context follows only when the typed text is non-empty |
| ScreenController.LatestWithComponent | src/App.tsx:75-82 | the latest message with both a component name and props, or none iff no message has them |
| ScreenController.ResultsPane | src/App.tsx:333-383 | precedence, both ways: the error, else the rendered component, else the response text, else "Thinking…"; the error pane shows `tamboError` and `tamboDiag`, the card shows `renderedComponent`, the text pane shows the message text or "Response received but no UI was generated" |
| ScreenController.HydrationAsWritten | src/App.tsx:94-104 | as written, a message hydrates iff its component name is one of the four or an inherited member, and agrees with the intended hydration on every other name |
| ScreenController.AsWrittenAgreesOutsideInherited | src/App.tsx:185-212 | the as-written `.then` handler and completion effect equal the intended ones whenever no component name involved is an inherited member |
| ScreenController.InheritedNameClearsError | src/App.tsx:196-207 | as written, a resolved message naming "toString" is hydrated with the error cleared and the screen kept, where the intended handler shows "Unknown component: toString" on RESULTS |
| ScreenController.Step | src/App.tsx:64-438 | every handler keeps the invariant: FOCUS only with the overlay open, no legacy panel, and never an empty error |
| ScreenController.RunPreservesWellFormed | src/App.tsx:389 | every state reachable from a well-formed state is well-formed, so the FOCUS screen always shows its overlay |
| ScreenController.StartResets | src/App.tsx:114-168 | a start records the intent and closes focus; with the key it clears the error, goes to THINKING and sends the instruction; without the key it lands on RESULTS with the missing-key error and sends nothing |
| ScreenController.CompletionShowsResults | src/App.tsx:71-111 | a COMPLETE generation always lands on RESULTS; when the latest message with component data names a registered component it is shown hydrated and the error cleared, and otherwise message and error are unchanged |
| ScreenController.ResolvedOutcomes | src/App.tsx:185-236 | all four outcomes: a registered component is shown hydrated with the error cleared and the screen kept; an unknown name gives "Unknown component: <name>" on RESULTS; a pre-rendered component is stored with the error cleared and the screen kept; neither gives "Tambo did not return component data" on RESULTS |
| ScreenController.BackGoesHome | src/App.tsx:250-263 | from any state: HOME, no error, focus closed, panel cleared, and a cancel is sent |
| ScreenController.FocusOnlyFromCard | src/App.tsx:354-367 | FOCUS is entered only by the card click on RESULTS, with no error and a rendered component |
| ScreenController.LeavingThinking | src/App.tsx:114-263 | THINKING is left only through an SDK outcome, a start without the key, or Back |
| ScreenController.StepSends | src/App.tsx:168-170 | one event sends a message exactly when it is a start with the key present |
| ScreenController.SendsOnlyOnStart | src/App.tsx:426-437 | over any event sequence, messages sent = keyed starts: focus, "think with this", Back and SDK outcomes never send |
| ScreenController.App.constructor | src/App.tsx:18-45 | the initial state: HOME, intent 0, empty text, nothing focused, no message, no error |
| ScreenController.App.StartThinkingThenResults | src/App.tsx:114-168 | `startThinkingThenResults` performs the start step and keeps the invariant |
| ScreenController.App.OnGenerationUpdate | src/App.tsx:64-112 | the generation effect performs the completion step |
| ScreenController.App.OnSendResolved | src/App.tsx:171-236 | the `.then` handler performs the resolved step |
| ScreenController.App.OnSendRejected | src/App.tsx:238-247 | the `.catch` handler sets the diagnostic, the message or "Generation failed", and RESULTS |
| ScreenController.App.BackToHome | src/App.tsx:250-263 | `backToHome` performs the Back step |
| ScreenController.App.OpenFocus | src/App.tsx:361-367 | the card click opens focus only where the card is shown |
| ScreenController.App.CloseFocus | src/App.tsx:394-423 | Close and ← Back in the overlay return to RESULTS with focus closed |
| ScreenController.App.ThinkWithThis | src/App.tsx:425-438 | "Think with this" stores the insight, closes focus and returns HOME without sending |
| ScreenController.App.OnRenderError | src/App.tsx:355-359 | a render error of the card sets its message, or "Unknown render error" |
| ScreenController.App.SetThinkingText | src/App.tsx:288 | typing updates the context text only |
| FallbackRenderer.ToUpper | src/utils/fallbackRenderer.tsx:14 | upper-casing keeps the length and maps each ASCII letter to its capital |
| FallbackRenderer.ToUpperIdempotent | src/utils/fallbackRenderer.tsx:14 | upper-casing twice is upper-casing once |
| FallbackRenderer.RenderFallbackComponent | src/utils/fallbackRenderer.tsx:11-36 | the data shown is always that of the view's own tool; an unrecognised intent gets the revenue trend |
| FallbackRenderer.CaseInsensitive | src/utils/fallbackRenderer.tsx:14 | intents equal up to case render the same |
| FallbackRenderer.AgreesWithIntentTable | src/utils/fallbackRenderer.tsx:11-36 | for every string, the fallback renders the component and the tool's data that the intent table of App.tsx names for it |
| FallbackRenderer.AgreesForEveryButton | src/utils/fallbackRenderer.tsx:15-30 | for each intent button, the fallback shows what the service was asked to render |

## Left out

- `revenueShare` is stated as the exact rational revenue/total. The `toFixed(4)` rounding and the
  unary `+` that follows it are floating-point formatting.
- The SDK (`useTamboThread`, `sendThreadMessage`, `cancel`) is external. Its outcomes are
  parameters and its requests are appended to `outbox`.
- `GenerationStage` is reduced to COMPLETE / not COMPLETE, the only distinction the effect makes.
- A send that resolves with `null` is the message with nothing set. A rejected send is represented
  by the message of its diagnostic: `toTamboDiag` (src/tambo/diagnostics.ts) is not part of this
  model.
- The cosmetic thinking timer (`setTimeout` with a random delay) and its clearing are not modelled.
  It changes no state the screens read.
- Console logging, JSX, CSS class selection and `getMoodGradient` are presentation.
- The legacy `FocusPanel` callbacks are not modelled, because nothing in App.tsx ever sets
  `focusedPanel` to a value. The invariant `WellFormed` states that it stays unset.
- ScreenController.App.StartThinkingThenResults: the API key check is a parameter, because the key
  comes from the build environment.
- FallbackRenderer.ToUpper: only `a`–`z` are upper-cased. JavaScript's full Unicode mapping, for
  example `ß` to `SS`, `ı` to `I` or `ſ` to `S`, is not modelled. Those mappings would also make
  some non-ASCII strings match an intent.
- Analytics.RevenueTrend and Analytics.OrderFunnelOf return the stored series and funnel as they
  are. They carry no contract, because there is nothing to state beyond that identity.
- The optional-argument defaults fire on `None`. JavaScript fires them on `undefined` only, and an
  explicit `null` would reach the comparisons. Callers in the program pass nothing or numbers.
- ScreenController.Step, ScreenController.App.OnGenerationUpdate, ScreenController.App.OnSendResolved,
  ScreenController.ResolvedOutcomes and ScreenController.CompletionShowsResults use the corrected
  component lookup, as the "## Findings" row explains. The handlers as written
  (`ResolvedAsWritten`, `GenerationCompletedAsWritten`) differ from them only on inherited member
  names such as "toString".
- The rendered component's React element is represented by the view it instantiates. Its props are
  represented by a has-props flag.

## Findings

| source | as written | input that shows it | evidently intended | confidence | as-written member | corrected member |
|---|---|---|---|---|---|---|
| src/App.tsx:87-96 and src/App.tsx:189-198 | `componentMap` is a plain object literal, so `componentMap[name]` is truthy for names inherited from `Object.prototype` | a message whose component is named `"toString"` (or `"constructor"`) with props: it passes the guard, is treated as a known component and is hydrated as a non-component function; no "Unknown component" error is set | only the four registered names resolve; any other name gives the "Unknown component: <name>" error | not executed | Registry.ComponentMapAsWritten, Registry.InheritedNameIsAccepted, ScreenController.InheritedNameClearsError | Registry.LookupComponent, used by ScreenController.Hydration |
