/**
 * The screen controller of src/App.tsx: four screens (HOME, THINKING, RESULTS,
 * FOCUS) and the state the handlers update through React setters.
 *
 * The generative-UI SDK is not modelled: what it reports (the generation stage
 * and the thread's messages, the value a send resolves with, the message a
 * failed send rejects with) enters as event parameters, and what the app asks
 * of it (send a message, cancel) is appended to `outbox`. Whether the API key
 * is configured is a parameter of the start event.
 *
 * `Step` is the whole controller as a function of state and event; the class
 * `App` holds the same state in mutable fields, one method per handler, each
 * proved to perform `Step`.
 */
module ScreenController {
  import opened Wrappers
  import opened Registry

  datatype Screen = Home | Thinking | Results | Focus

  /** `msg.component`: the component the service chose, and whether it sent props. */
  datatype ComponentData = ComponentData(componentName: string, hasProps: bool)

  /**
   * A `renderedComponent`: a view hydrated by the app, a node the SDK rendered
   * itself, or (only in the lookup as written) an inherited `Object.prototype`
   * member instantiated as if it were a component.
   */
  datatype RenderedNode = Hydrated(view: View) | SdkNode | InheritedNode(member: string)

  /**
   * A thread message as far as the screens read it: the component data, the
   * rendered component, the text of its first content part ("" when absent) and
   * the `_tamboHydrated` mark. A null message is the one with nothing set.
   */
  datatype ThreadMessage = ThreadMessage(
    component: Option<ComponentData>, renderedComponent: Option<RenderedNode>, text: string, hydrated: bool)

  /** The diagnostics record shown under an error. */
  datatype Diag = MissingKeyDiag | ErrorDiag(message: string)

  datatype Insight = Insight(id: string, kind: string, summary: string)

  /** The legacy focus panel's content. */
  datatype Panel = Panel(title: string)

  /** Requests made of the SDK: `sendThreadMessage(text)` and `cancel()`. */
  datatype SdkRequest = SendMessage(text: string) | Cancel

  /** The SDK's generation stage; only COMPLETE is acted upon. */
  datatype GenerationStage = Complete | NotComplete

  // ---- Intents

  datatype IntentEntry = IntentEntry(component: View, tool: Tool)

  const IntentLabels: seq<string> := ["EXPLORE", "UNDERSTAND", "DECIDE", "ACT"]

  /** `['EXPLORE', 'UNDERSTAND', 'DECIDE', 'ACT'][idx] ?? 'EXPLORE'`. */
  function IntentLabel(idx: int): (l: string)
    ensures 0 <= idx < |IntentLabels| ==> l == IntentLabels[idx]
    ensures !(0 <= idx < |IntentLabels|) ==> l == "EXPLORE"
  {
    if 0 <= idx < |IntentLabels| then IntentLabels[idx] else "EXPLORE"
  }

  /** `intentMap`: the component and tool each intent asks for. */
  const IntentMap: map<string, IntentEntry> := map[
    "EXPLORE" := IntentEntry(TrendView, GetRevenueTrend),
    "UNDERSTAND" := IntentEntry(BreakdownView, GetCategoryBreakdown),
    "DECIDE" := IntentEntry(RankingView, GetSellerRanking),
    "ACT" := IntentEntry(ActionsView, GetActionItems)]

  /** `intentMap[label] || intentMap['EXPLORE']`. */
  function IntentEntryFor(intent: string): IntentEntry {
    if intent in IntentMap then IntentMap[intent] else IntentMap["EXPLORE"]
  }

  /** Each intent index selects its fixed (component, tool) pair; any other index selects EXPLORE's. */
  lemma IntentTable(idx: int)
    ensures IntentEntryFor(IntentLabel(idx)) ==
      if idx == 1 then IntentEntry(BreakdownView, GetCategoryBreakdown)
      else if idx == 2 then IntentEntry(RankingView, GetSellerRanking)
      else if idx == 3 then IntentEntry(ActionsView, GetActionItems)
      else IntentEntry(TrendView, GetRevenueTrend)
  {
  }

  const UserContextPrefix: string := " User context: "

  /** The instruction sent for an intent, with the typed context appended when there is some. */
  function Instruction(entry: IntentEntry, thinkingText: string): (text: string)
    ensures var head := "Call the " + ToolName(entry.tool) + "() tool and render the " +
                        ComponentName(entry.component) + " component with the returned data.";
      && |text| >= |head| && text[..|head|] == head
      && (thinkingText == "" ==> text == head)
      && (thinkingText != "" ==> text[|head|..] == UserContextPrefix + thinkingText)
  {
    "Call the " + ToolName(entry.tool) + "() tool and render the " + ComponentName(entry.component) +
    " component with the returned data." + (if thinkingText != "" then UserContextPrefix + thinkingText else "")
  }

  // ---- Messages

  const MissingKeyError: string := "Missing VITE_TAMBO_API_KEY. Restart Vite after adding .env."
  const NoComponentDataError: string := "Tambo did not return component data"
  const GenerationFailedError: string := "Generation failed"
  const UnknownRenderError: string := "Unknown render error"
  const UnknownComponentPrefix: string := "Unknown component: "
  const NoUiText: string := "Response received but no UI was generated"
  const SelectedInsight: Insight := Insight("tambo-render", "tambo_component", "User selected the focused insight")

  /** `msg?.component?.componentName && msg?.component?.props`. */
  predicate HasComponentData(m: ThreadMessage) {
    m.component.Some? && m.component.value.componentName != "" && m.component.value.hasProps
  }

  /** The index of the latest message carrying component data (the last element of the filtered list). */
  function LatestWithComponent(msgs: seq<ThreadMessage>): (k: Option<nat>)
    ensures k.None? <==> forall i :: 0 <= i < |msgs| ==> !HasComponentData(msgs[i])
    ensures k.Some? ==>
      && k.value < |msgs| && HasComponentData(msgs[k.value])
      && (forall i :: k.value < i < |msgs| ==> !HasComponentData(msgs[i]))
  {
    if |msgs| == 0 then None
    else if HasComponentData(msgs[|msgs| - 1]) then Some(|msgs| - 1)
    else LatestWithComponent(msgs[..|msgs| - 1])
  }

  /** `{ ...msg, renderedComponent: <View {...props} />, _tamboHydrated: true }`. */
  function Hydrate(m: ThreadMessage, v: View): ThreadMessage {
    m.(renderedComponent := Some(Hydrated(v)), hydrated := true)
  }

  // ---- State

  datatype AppState = AppState(
    screen: Screen,
    activeIntent: int,
    thinkingText: string,
    focusedInsight: Option<Insight>,
    isFocusOpen: bool,
    focusedPanel: Option<Panel>,
    lastTamboMessage: Option<ThreadMessage>,
    tamboError: Option<string>,
    tamboDiag: Option<Diag>,
    outbox: seq<SdkRequest>)

  const Initial: AppState := AppState(Home, 0, "", None, false, None, None, None, None, [])

  /**
   * What every reachable state satisfies: the FOCUS screen always has the
   * overlay open, the legacy panel is never set, and an error message is never
   * empty (so "an error is shown" is the same as "an error is set").
   */
  predicate WellFormed(s: AppState) {
    && (s.screen == Focus ==> s.isFocusOpen)
    && s.focusedPanel.None?
    && (s.tamboError.Some? ==> s.tamboError.value != "")
  }

  /** What the results pane shows. */
  datatype Pane = ErrorPane(message: string, diag: Option<Diag>) | ComponentPane(node: RenderedNode) | TextPane(text: string) | ThinkingPane

  /** The results pane: the error first, else the rendered component, else the response text, else "Thinking…". */
  function ResultsPane(s: AppState): (p: Pane)
    ensures p.ErrorPane? <==> s.tamboError.Some? && s.tamboError.value != ""
    ensures p.ComponentPane? <==>
      !(s.tamboError.Some? && s.tamboError.value != "") &&
      s.lastTamboMessage.Some? && s.lastTamboMessage.value.renderedComponent.Some?
    ensures p.TextPane? <==>
      !(s.tamboError.Some? && s.tamboError.value != "") &&
      s.lastTamboMessage.Some? && s.lastTamboMessage.value.renderedComponent.None?
    ensures p.ThinkingPane? <==> !(s.tamboError.Some? && s.tamboError.value != "") && s.lastTamboMessage.None?
    ensures p.ErrorPane? ==> s.tamboError == Some(p.message) && p.diag == s.tamboDiag
    ensures p.ComponentPane? ==> s.lastTamboMessage.Some? && s.lastTamboMessage.value.renderedComponent == Some(p.node)
    ensures p.TextPane? ==>
      && s.lastTamboMessage.Some?
      && p.text == if s.lastTamboMessage.value.text != "" then s.lastTamboMessage.value.text else NoUiText
  {
    if s.tamboError.Some? && s.tamboError.value != "" then ErrorPane(s.tamboError.value, s.tamboDiag)
    else if s.lastTamboMessage.Some? && s.lastTamboMessage.value.renderedComponent.Some? then
      ComponentPane(s.lastTamboMessage.value.renderedComponent.value)
    else if s.lastTamboMessage.Some? then
      TextPane(if s.lastTamboMessage.value.text != "" then s.lastTamboMessage.value.text else NoUiText)
    else ThinkingPane
  }

  /** The rendered card is clickable: the RESULTS screen shows a component. */
  predicate CardClickable(s: AppState) {
    s.screen == Results && ResultsPane(s).ComponentPane?
  }

  /** The focus overlay with its Close and "Think with this" buttons is on screen. */
  predicate FocusOverlayShown(s: AppState) {
    s.screen == Focus && s.isFocusOpen
  }

  // ---- Events and the transition function

  datatype Event =
    | StartIntent(idx: int, apiKeyPresent: bool)          // intent button (startThinkingThenResults)
    | GenerationUpdate(stage: GenerationStage, messages: Option<seq<ThreadMessage>>)
    | SendResolved(msg: ThreadMessage)                     // sendThreadMessage(...).then
    | SendRejected(message: string)                        // sendThreadMessage(...).catch, with the error's message
    | BackToHome
    | OpenFocus                                            // click on the rendered card
    | CloseFocus                                           // "Close" or "← Back" in the focus overlay
    | ThinkWithThis
    | RenderError(message: string)                         // the error boundary around the card
    | ContextChanged(text: string)                         // typing in the context input

  /** Hydrates a message whose component name is registered; `None` for an unknown name. */
  function Hydration(m: ThreadMessage): Option<ThreadMessage>
    requires HasComponentData(m)
  {
    match LookupComponent(m.component.value.componentName)
    case Some(v) => Some(Hydrate(m, v))
    case None => None
  }

  function Start(s: AppState, idx: int, apiKeyPresent: bool): AppState {
    var started := s.(tamboError := None, tamboDiag := None, activeIntent := idx,
                      focusedPanel := None, isFocusOpen := false, screen := Thinking);
    if !apiKeyPresent then
      started.(tamboDiag := Some(MissingKeyDiag), tamboError := Some(MissingKeyError), screen := Results)
    else
      var entry := IntentEntryFor(IntentLabel(idx));
      started.(outbox := s.outbox + [SendMessage(Instruction(entry, s.thinkingText))])
  }

  function GenerationCompleted(s: AppState, stage: GenerationStage, messages: Option<seq<ThreadMessage>>): AppState {
    if messages.None? || stage != Complete then s
    else
      var latest := LatestWithComponent(messages.value);
      var hydrated := if latest.Some? then Hydration(messages.value[latest.value]) else None;
      var shown := if hydrated.Some? then s.(lastTamboMessage := hydrated, tamboError := None) else s;
      shown.(screen := Results)
  }

  function Resolved(s: AppState, msg: ThreadMessage): AppState {
    if HasComponentData(msg) then
      match Hydration(msg)
      case Some(m) => s.(lastTamboMessage := Some(m), tamboError := None)
      case None => s.(tamboError := Some(UnknownComponentPrefix + msg.component.value.componentName), screen := Results)
    else if msg.renderedComponent.Some? then
      s.(lastTamboMessage := Some(msg), tamboError := None)
    else
      s.(tamboError := Some(NoComponentDataError), screen := Results)
  }

  function Rejected(s: AppState, message: string): AppState {
    s.(tamboDiag := Some(ErrorDiag(message)),
       tamboError := Some(if message != "" then message else GenerationFailedError),
       screen := Results)
  }

  function Back(s: AppState): AppState {
    s.(focusedPanel := None, isFocusOpen := false, screen := Home, tamboError := None,
       outbox := s.outbox + [Cancel])
  }

  // ---- The hydration as written (see Registry.ComponentMapAsWritten)

  /** Hydration through `componentMap[name]` as written: inherited member names hydrate too. */
  function HydrationAsWritten(m: ThreadMessage): (r: Option<ThreadMessage>)
    requires HasComponentData(m)
    ensures r.Some? <==> m.component.value.componentName in KnownComponentNames + InheritedMemberNames
    ensures m.component.value.componentName !in InheritedMemberNames ==> r == Hydration(m)
  {
    match ComponentMapAsWritten(m.component.value.componentName)
    case Some(Registered(v)) => Some(Hydrate(m, v))
    case Some(InheritedMember(name)) => Some(m.(renderedComponent := Some(InheritedNode(name)), hydrated := true))
    case None => None
  }

  /** The `.then` handler of the send as written: only the lookup differs from `Resolved`. */
  function ResolvedAsWritten(s: AppState, msg: ThreadMessage): AppState {
    if HasComponentData(msg) && HydrationAsWritten(msg).Some? then
      s.(lastTamboMessage := HydrationAsWritten(msg), tamboError := None)
    else Resolved(s, msg)
  }

  /** The completion effect as written: only the lookup differs from `GenerationCompleted`. */
  function GenerationCompletedAsWritten(s: AppState, stage: GenerationStage, messages: Option<seq<ThreadMessage>>): AppState {
    if messages.None? || stage != Complete then s
    else
      var latest := LatestWithComponent(messages.value);
      var hydrated := if latest.Some? then HydrationAsWritten(messages.value[latest.value]) else None;
      var shown := if hydrated.Some? then s.(lastTamboMessage := hydrated, tamboError := None) else s;
      shown.(screen := Results)
  }

  /** The two handlers agree on every message whose component name is not an inherited member. */
  lemma AsWrittenAgreesOutsideInherited(s: AppState, msg: ThreadMessage, stage: GenerationStage, msgs: seq<ThreadMessage>)
    requires HasComponentData(msg) ==> msg.component.value.componentName !in InheritedMemberNames
    requires forall i :: 0 <= i < |msgs| && HasComponentData(msgs[i]) ==>
      msgs[i].component.value.componentName !in InheritedMemberNames
    ensures ResolvedAsWritten(s, msg) == Resolved(s, msg)
    ensures GenerationCompletedAsWritten(s, stage, Some(msgs)) == GenerationCompleted(s, stage, Some(msgs))
  {
    var latest := LatestWithComponent(msgs);
    if latest.Some? {
      assert HasComponentData(msgs[latest.value]);
    }
  }

  /**
   * A resolved send whose component is named "toString" (with props): as
   * written it is hydrated, the error is cleared and the screen kept; the
   * intended handler reports "Unknown component: toString" on RESULTS.
   */
  lemma InheritedNameClearsError(s: AppState)
    ensures var msg := ThreadMessage(Some(ComponentData("toString", true)), None, "", false);
      var asWritten, intended := ResolvedAsWritten(s, msg), Step(s, SendResolved(msg));
      && asWritten.tamboError.None? && asWritten.screen == s.screen
      && asWritten.lastTamboMessage.Some?
      && asWritten.lastTamboMessage.value.renderedComponent == Some(InheritedNode("toString"))
      && intended.tamboError == Some(UnknownComponentPrefix + "toString") && intended.screen == Results
      && intended.lastTamboMessage == s.lastTamboMessage
  {
    var msg := ThreadMessage(Some(ComponentData("toString", true)), None, "", false);
    assert "toString" in InheritedMemberNames;
    assert "toString" !in KnownComponentNames;
  }

  /** One event. A click on a control that is not on screen changes nothing. */
  function Step(s: AppState, e: Event): (s': AppState)
    ensures WellFormed(s) ==> WellFormed(s')
  {
    match e
    case StartIntent(idx, apiKeyPresent) => Start(s, idx, apiKeyPresent)
    case GenerationUpdate(stage, messages) => GenerationCompleted(s, stage, messages)
    case SendResolved(msg) => Resolved(s, msg)
    case SendRejected(message) => Rejected(s, message)
    case BackToHome => Back(s)
    case OpenFocus =>
      if CardClickable(s) then s.(isFocusOpen := true, screen := Focus) else s
    case CloseFocus =>
      if FocusOverlayShown(s) then s.(isFocusOpen := false, screen := Results) else s
    case ThinkWithThis =>
      if FocusOverlayShown(s) then s.(focusedInsight := Some(SelectedInsight), isFocusOpen := false, screen := Home) else s
    case RenderError(message) =>
      if ResultsPane(s).ComponentPane? then s.(tamboError := Some(if message != "" then message else UnknownRenderError)) else s
    case ContextChanged(text) => s.(thinkingText := text)
  }

  function Run(s: AppState, events: seq<Event>): AppState
    decreases |events|
  {
    if |events| == 0 then s else Run(Step(s, events[0]), events[1..])
  }

  // ---- Properties of the transition function

  /** Every state reachable from a well-formed one is well-formed. */
  lemma {:induction false} RunPreservesWellFormed(s: AppState, events: seq<Event>)
    requires WellFormed(s)
    ensures WellFormed(Run(s, events))
    decreases |events|
  {
    if |events| > 0 {
      RunPreservesWellFormed(Step(s, events[0]), events[1..]);
    }
  }

  /** Starting an intent clears the error, the diagnostics and the panel, closes focus and records the intent. */
  lemma StartResets(s: AppState, idx: int, apiKeyPresent: bool)
    ensures var s' := Step(s, StartIntent(idx, apiKeyPresent));
      && s'.activeIntent == idx && !s'.isFocusOpen && s'.focusedPanel.None?
      && (apiKeyPresent ==>
            s'.screen == Thinking && s'.tamboError.None? && s'.tamboDiag.None? &&
            s'.outbox == s.outbox + [SendMessage(Instruction(IntentEntryFor(IntentLabel(idx)), s.thinkingText))])
      && (!apiKeyPresent ==>
            s'.screen == Results && s'.tamboError == Some(MissingKeyError) && s'.outbox == s.outbox)
  {
  }

  /**
   * A COMPLETE generation always lands on RESULTS. The shown message and the
   * error change exactly when the latest message with component data names a
   * registered component; that message is then shown hydrated, with no error.
   */
  lemma CompletionShowsResults(s: AppState, msgs: seq<ThreadMessage>)
    ensures var s' := Step(s, GenerationUpdate(Complete, Some(msgs)));
      var latest := LatestWithComponent(msgs);
      && s'.screen == Results
      && (s'.lastTamboMessage != s.lastTamboMessage || s'.tamboError != s.tamboError ==>
            latest.Some? &&
            LookupComponent(msgs[latest.value].component.value.componentName).Some? &&
            s'.tamboError.None? &&
            s'.lastTamboMessage == Some(Hydrate(msgs[latest.value],
                                                LookupComponent(msgs[latest.value].component.value.componentName).value)))
      && (latest.Some? && LookupComponent(msgs[latest.value].component.value.componentName).Some? ==>
            s'.tamboError.None? &&
            s'.lastTamboMessage == Some(Hydrate(msgs[latest.value],
                                                LookupComponent(msgs[latest.value].component.value.componentName).value)))
      && (!(latest.Some? && LookupComponent(msgs[latest.value].component.value.componentName).Some?) ==>
            s'.lastTamboMessage == s.lastTamboMessage && s'.tamboError == s.tamboError)
  {
  }

  /** The four outcomes of a resolved send. */
  lemma ResolvedOutcomes(s: AppState, msg: ThreadMessage)
    ensures var s' := Step(s, SendResolved(msg));
      && (HasComponentData(msg) && LookupComponent(msg.component.value.componentName).Some? ==>
            s'.screen == s.screen && s'.tamboError.None? &&
            s'.lastTamboMessage == Some(Hydrate(msg, LookupComponent(msg.component.value.componentName).value)))
      && (HasComponentData(msg) && LookupComponent(msg.component.value.componentName).None? ==>
            s'.screen == Results && s'.tamboError == Some("Unknown component: " + msg.component.value.componentName) &&
            s'.lastTamboMessage == s.lastTamboMessage)
      && (!HasComponentData(msg) && msg.renderedComponent.Some? ==>
            s'.lastTamboMessage == Some(msg) && s'.tamboError.None? && s'.screen == s.screen)
      && (!HasComponentData(msg) && msg.renderedComponent.None? ==>
            s'.screen == Results && s'.tamboError == Some(NoComponentDataError) &&
            s'.lastTamboMessage == s.lastTamboMessage)
  {
  }

  /** Back leads HOME from every state, with no error and focus closed, and cancels the generation. */
  lemma BackGoesHome(s: AppState)
    ensures var s' := Step(s, BackToHome);
      s'.screen == Home && s'.tamboError.None? && !s'.isFocusOpen && s'.focusedPanel.None? &&
      s'.outbox == s.outbox + [Cancel] && s'.lastTamboMessage == s.lastTamboMessage
  {
  }

  /** FOCUS is entered only by clicking a rendered component on RESULTS, which needs no error to be shown. */
  lemma FocusOnlyFromCard(s: AppState, e: Event)
    requires WellFormed(s)
    requires s.screen != Focus && Step(s, e).screen == Focus
    ensures e == OpenFocus && s.screen == Results
    ensures s.tamboError.None? && s.lastTamboMessage.Some? && s.lastTamboMessage.value.renderedComponent.Some?
  {
  }

  /** The screen leaves THINKING only through an SDK outcome, a new start without a key, or Back. */
  lemma LeavingThinking(s: AppState, e: Event)
    requires s.screen == Thinking && Step(s, e).screen != Thinking
    ensures || e.GenerationUpdate? || e.SendResolved? || e.SendRejected? || e.BackToHome?
            || (e.StartIntent? && !e.apiKeyPresent)
  {
  }

  /** The number of messages sent. */
  function Sends(out: seq<SdkRequest>): nat {
    if |out| == 0 then 0 else Sends(out[..|out| - 1]) + (if out[|out| - 1].SendMessage? then 1 else 0)
  }

  /** The number of intent starts made with the API key present. */
  function KeyedStarts(events: seq<Event>): nat {
    if |events| == 0 then 0 else (if events[0].StartIntent? && events[0].apiKeyPresent then 1 else 0) + KeyedStarts(events[1..])
  }

  lemma SendsAppend(out: seq<SdkRequest>, r: SdkRequest)
    ensures Sends(out + [r]) == Sends(out) + if r.SendMessage? then 1 else 0
  {
    assert (out + [r])[..|out|] == out;
  }

  /** One event sends exactly when it is an intent start with the key present. */
  lemma StepSends(s: AppState, e: Event)
    ensures Sends(Step(s, e).outbox) == Sends(s.outbox) + if e.StartIntent? && e.apiKeyPresent then 1 else 0
  {
    match e
    case StartIntent(idx, key) =>
      if key {
        SendsAppend(s.outbox, SendMessage(Instruction(IntentEntryFor(IntentLabel(idx)), s.thinkingText)));
      }
    case BackToHome =>
      SendsAppend(s.outbox, Cancel);
    case _ =>
  }

  /**
   * Messages reach the service only from intent starts with the key present:
   * focus, "think with this", Back and the SDK outcomes never send.
   */
  lemma {:induction false} SendsOnlyOnStart(s: AppState, events: seq<Event>)
    ensures Sends(Run(s, events).outbox) == Sends(s.outbox) + KeyedStarts(events)
    decreases |events|
  {
    if |events| > 0 {
      StepSends(s, events[0]);
      SendsOnlyOnStart(Step(s, events[0]), events[1..]);
    }
  }

  // ---- The component, with its React state as fields

  class App {
    var screen: Screen
    var activeIntent: int
    var thinkingText: string
    var focusedInsight: Option<Insight>
    var isFocusOpen: bool
    var focusedPanel: Option<Panel>
    var lastTamboMessage: Option<ThreadMessage>
    var tamboError: Option<string>
    var tamboDiag: Option<Diag>
    var outbox: seq<SdkRequest>

    function State(): AppState
      reads this
    {
      AppState(screen, activeIntent, thinkingText, focusedInsight, isFocusOpen, focusedPanel,
               lastTamboMessage, tamboError, tamboDiag, outbox)
    }

    ghost predicate Valid()
      reads this
    {
      WellFormed(State())
    }

    constructor ()
      ensures Valid() && State() == Initial
    {
      screen, activeIntent, thinkingText := Home, 0, "";
      focusedInsight, isFocusOpen, focusedPanel := None, false, None;
      lastTamboMessage, tamboError, tamboDiag := None, None, None;
      outbox := [];
    }

    /** `startThinkingThenResults(idx)`. */
    method StartThinkingThenResults(idx: int, apiKeyPresent: bool)
      requires Valid()
      modifies this
      ensures Valid() && State() == Step(old(State()), StartIntent(idx, apiKeyPresent))
    {
      tamboError := None;
      tamboDiag := None;
      activeIntent := idx;
      focusedPanel := None;
      isFocusOpen := false;
      screen := Thinking;
      var intentLabel := IntentLabel(idx);
      if !apiKeyPresent {
        tamboDiag := Some(MissingKeyDiag);
        tamboError := Some(MissingKeyError);
        screen := Results;
        return;
      }
      var entry := IntentEntryFor(intentLabel);
      outbox := outbox + [SendMessage(Instruction(entry, thinkingText))];
    }

    /** The effect on `[generationStage, thread]`. */
    method OnGenerationUpdate(stage: GenerationStage, messages: Option<seq<ThreadMessage>>)
      requires Valid()
      modifies this
      ensures Valid() && State() == Step(old(State()), GenerationUpdate(stage, messages))
    {
      if messages.None? {
        return;
      }
      if stage == Complete {
        var latest := LatestWithComponent(messages.value);
        if latest.Some? {
          var hydrated := Hydration(messages.value[latest.value]);
          if hydrated.Some? {
            lastTamboMessage := hydrated;
            tamboError := None;
          }
        }
        screen := Results;
      }
    }

    /** The `.then` handler of the send. */
    method OnSendResolved(msg: ThreadMessage)
      requires Valid()
      modifies this
      ensures Valid() && State() == Step(old(State()), SendResolved(msg))
    {
      if HasComponentData(msg) {
        var hydrated := Hydration(msg);
        if hydrated.Some? {
          lastTamboMessage := hydrated;
          tamboError := None;
        } else {
          tamboError := Some(UnknownComponentPrefix + msg.component.value.componentName);
          screen := Results;
        }
      } else if msg.renderedComponent.Some? {
        lastTamboMessage := Some(msg);
        tamboError := None;
      } else {
        tamboError := Some(NoComponentDataError);
        screen := Results;
      }
    }

    /** The `.catch` handler of the send; `message` is the diagnostic's message. */
    method OnSendRejected(message: string)
      requires Valid()
      modifies this
      ensures Valid() && State() == Step(old(State()), SendRejected(message))
    {
      tamboDiag := Some(ErrorDiag(message));
      tamboError := Some(if message != "" then message else GenerationFailedError);
      screen := Results;
    }

    /** `backToHome`. */
    method BackToHome()
      requires Valid()
      modifies this
      ensures Valid() && State() == Step(old(State()), Event.BackToHome)
    {
      focusedPanel := None;
      isFocusOpen := false;
      screen := Home;
      tamboError := None;
      outbox := outbox + [Cancel];
    }

    /** Click on the rendered card. */
    method OpenFocus()
      requires Valid()
      modifies this
      ensures Valid() && State() == Step(old(State()), Event.OpenFocus)
    {
      if CardClickable(State()) {
        isFocusOpen := true;
        screen := Focus;
      }
    }

    /** "Close" or "← Back" in the focus overlay. */
    method CloseFocus()
      requires Valid()
      modifies this
      ensures Valid() && State() == Step(old(State()), Event.CloseFocus)
    {
      if screen == Focus && isFocusOpen {
        isFocusOpen := false;
        screen := Results;
      }
    }

    /** "Think with this": keeps the insight and returns HOME; nothing is sent. */
    method ThinkWithThis()
      requires Valid()
      modifies this
      ensures Valid() && State() == Step(old(State()), Event.ThinkWithThis)
    {
      if screen == Focus && isFocusOpen {
        focusedInsight := Some(SelectedInsight);
        isFocusOpen := false;
        screen := Home;
      }
    }

    /** The error boundary's `onError` around the rendered card. */
    method OnRenderError(message: string)
      requires Valid()
      modifies this
      ensures Valid() && State() == Step(old(State()), RenderError(message))
    {
      if ResultsPane(State()).ComponentPane? {
        tamboError := Some(if message != "" then message else UnknownRenderError);
      }
    }

    /** The context input's `onContextChange`. */
    method SetThinkingText(text: string)
      requires Valid()
      modifies this
      ensures Valid() && State() == Step(old(State()), ContextChanged(text))
    {
      thinkingText := text;
    }
  }
}
