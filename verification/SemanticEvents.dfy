/** Adapting response events to turn events with item handles, and building the events of a
    whole response (src/llm/src/semantic.rs:467-514, 571-670, src/llm/src/api/completion.rs). */
module SemanticEvents {
  import opened Basics
  import opened Transcript
  import opened ProposedPlanText
  import PlanText

  datatype SemanticItem =
    | AssistantOutput(item: TranscriptItem)
    | ReasoningOutput(item: TranscriptItem)
    | HostedOutput(item: TranscriptItem)

  datatype CallRequest = CallRequest(id: Option<string>, callId: string, toolName: string, payload: ToolCallPayload)

  datatype TurnEvent =
    | TurnCreated
    | RuntimeNotice(message: string)
    | ItemStarted(handle: string, output: SemanticItem)
    | ItemCompleted(handle: string, output: SemanticItem)
    | TurnToolCall(call: CallRequest)
    | TurnTextDelta(handle: string, delta: string)
    | TurnPlanDelta(handle: string, delta: string)
    | TurnPlanDone(handle: string, text: string)
    | TurnSummaryDelta(handle: string, delta: string, index: int)
    | TurnReasoningDelta(handle: string, delta: string, index: int)
    | TurnSummaryPart(handle: string, index: int)
    | TurnServerReasoning(included: bool)
    | TurnCompleted(responseId: string, usage: Option<TokenUsage>)
    | TurnModelsEtag(etag: string)

  function FromTranscriptItem(item: TranscriptItem): Option<SemanticItem> {
    if IsAssistant(item) then Some(AssistantOutput(item))
    else if item.Reasoning? then Some(ReasoningOutput(item))
    else if item.HostedActivity? then Some(HostedOutput(item))
    else None
  }

  function CallFromItem(item: TranscriptItem): Option<CallRequest> {
    if item.ToolCall? then Some(CallRequest(item.toolCallId, item.callId, item.toolName, item.payload)) else None
  }

  function CallToItem(call: CallRequest): TranscriptItem {
    ToolCall(call.id, call.callId, call.toolName, call.payload)
  }

  function SuggestedHandle(output: SemanticItem): Option<string> {
    match output.item
    case Message(id, _, _, _) => id
    case Reasoning(id, _, _, _) => Some(id)
    case HostedActivity(id, _, _, _) => id
    case _ => None
  }

  /** The active handle, and the number of the next synthetic handle. */
  datatype Handles = Handles(active: Option<string>, next: nat)

  function Synthetic(n: nat): string {
    "llm-item-" + Numeral(n)
  }

  lemma SyntheticInjective(m: nat, n: nat)
    requires Synthetic(m) == Synthetic(n)
    ensures m == n
  {
    var p := "llm-item-";
    assert Synthetic(m)[|p|..] == Numeral(m) && Synthetic(n)[|p|..] == Numeral(n);
    NumeralInjective(m, n);
  }

  /** The handle for an item whose handle is not known yet. */
  function NewHandle(h: Handles, output: SemanticItem): (string, nat) {
    if SuggestedHandle(output).Some? then (SuggestedHandle(output).value, h.next)
    else (Synthetic(h.next), h.next + 1)
  }

  function WithHandle(h: Handles, event: string -> TurnEvent): seq<TurnEvent> {
    if h.active.Some? then [event(h.active.value)] else []
  }

  function Adapt(h: Handles, e: ResponseEvent): (Handles, seq<TurnEvent>) {
    match e
    case Created => (h, [TurnCreated])
    case OutputItemAdded(item) =>
      var output := FromTranscriptItem(item);
      if output.None? then (h, [])
      else
        var (handle, next) := NewHandle(h, output.value);
        (Handles(Some(handle), next), [ItemStarted(handle, output.value)])
    case OutputItemDone(item) =>
      var output := FromTranscriptItem(item);
      if item.ToolCall? then (h, [TurnToolCall(CallFromItem(item).value)])
      else if output.None? then (h, [])
      else if h.active.Some? then (Handles(None, h.next), [ItemCompleted(h.active.value, output.value)])
      else
        var (handle, next) := NewHandle(h, output.value);
        (Handles(None, next), [ItemCompleted(handle, output.value)])
    case OutputTextDelta(delta) => (h, WithHandle(h, handle => TurnTextDelta(handle, delta)))
    case ProposedPlanDelta(delta) => (h, WithHandle(h, handle => TurnPlanDelta(handle, delta)))
    case ProposedPlanDone(text) => (h, WithHandle(h, handle => TurnPlanDone(handle, text)))
    case ReasoningSummaryDelta(delta, index) => (h, WithHandle(h, handle => TurnSummaryDelta(handle, delta, index)))
    case ReasoningContentDelta(delta, index) => (h, WithHandle(h, handle => TurnReasoningDelta(handle, delta, index)))
    case ReasoningSummaryPartAdded(index) => (h, WithHandle(h, handle => TurnSummaryPart(handle, index)))
    case ServerReasoningIncluded(included) => (h, [TurnServerReasoning(included)])
    case Completed(responseId, usage) => (Handles(None, h.next), [TurnCompleted(responseId, usage)])
    case ModelsEtag(etag) => (h, [TurnModelsEtag(etag)])
  }

  function AdaptAll(h: Handles, events: seq<ResponseEvent>): (Handles, seq<TurnEvent>) {
    if events == [] then (h, [])
    else
      var (before, out) := AdaptAll(h, events[..|events| - 1]);
      var (after, more) := Adapt(before, events[|events| - 1]);
      (after, out + more)
  }

  lemma {:induction false} AdaptAllAppend(h: Handles, a: seq<ResponseEvent>, b: seq<ResponseEvent>)
    ensures var (m, out) := AdaptAll(h, a);
            var (n, more) := AdaptAll(m, b);
            AdaptAll(h, a + b) == (n, out + more)
  {
    hide Adapt;
    var (m, out) := AdaptAll(h, a);
    if b == [] {
      assert a + b == a && out + [] == out;
    } else {
      var k := |b| - 1;
      assert (a + b)[..|a| + k] == a + b[..k];
      AdaptAllAppend(h, a, b[..k]);
      var (n, more) := AdaptAll(m, b[..k]);
      Associative(out, more, Adapt(n, b[k]).1);
    }
  }

  class Adapter {
    var activeHandle: Option<string>
    var nextSyntheticHandle: nat

    function Current(): Handles
      reads this
    {
      Handles(activeHandle, nextSyntheticHandle)
    }

    constructor ()
      ensures Current() == Handles(None, 0)
    {
      activeHandle, nextSyntheticHandle := None, 0;
    }

    method NextItemHandle() returns (handle: string)
      modifies this`nextSyntheticHandle
      ensures handle == Synthetic(old(nextSyntheticHandle))
      ensures nextSyntheticHandle == old(nextSyntheticHandle) + 1
    {
      handle := "llm-item-" + Numeral(nextSyntheticHandle);
      nextSyntheticHandle := nextSyntheticHandle + 1;
    }

    method AdaptResponseEvent(e: ResponseEvent) returns (events: seq<TurnEvent>)
      modifies this
      ensures (Current(), events) == Adapt(old(Current()), e)
    {
      events := [];
      match e {
        case OutputItemAdded(item) =>
          var output := FromTranscriptItem(item);
          if output.Some? {
            var handle;
            if SuggestedHandle(output.value).Some? {
              handle := SuggestedHandle(output.value).value;
            } else {
              handle := NextItemHandle();
            }
            activeHandle := Some(handle);
            events := [ItemStarted(handle, output.value)];
          }
        case OutputItemDone(item) =>
          var call, output := CallFromItem(item), FromTranscriptItem(item);
          if call.Some? {
            events := [TurnToolCall(call.value)];
          } else if output.Some? {
            var handle;
            if activeHandle.Some? {
              handle := activeHandle.value;
            } else if SuggestedHandle(output.value).Some? {
              handle := SuggestedHandle(output.value).value;
            } else {
              handle := NextItemHandle();
            }
            activeHandle := None;
            events := [ItemCompleted(handle, output.value)];
          }
        case Completed(responseId, usage) =>
          activeHandle := None;
          events := [TurnCompleted(responseId, usage)];
        case Created => events := [TurnCreated];
        case ServerReasoningIncluded(included) => events := [TurnServerReasoning(included)];
        case ModelsEtag(etag) => events := [TurnModelsEtag(etag)];
        case OutputTextDelta(delta) =>
          if activeHandle.Some? { events := [TurnTextDelta(activeHandle.value, delta)]; }
        case ProposedPlanDelta(delta) =>
          if activeHandle.Some? { events := [TurnPlanDelta(activeHandle.value, delta)]; }
        case ProposedPlanDone(text) =>
          if activeHandle.Some? { events := [TurnPlanDone(activeHandle.value, text)]; }
        case ReasoningSummaryDelta(delta, index) =>
          if activeHandle.Some? { events := [TurnSummaryDelta(activeHandle.value, delta, index)]; }
        case ReasoningContentDelta(delta, index) =>
          if activeHandle.Some? { events := [TurnReasoningDelta(activeHandle.value, delta, index)]; }
        case ReasoningSummaryPartAdded(index) =>
          if activeHandle.Some? { events := [TurnSummaryPart(activeHandle.value, index)]; }
      }
    }
  }

  // ---------------------------------------------------------------------------
  // Every event under the handle it belongs to

  /** The handle of the item started last, unless one was completed or the response ended since. */
  function OpenHandle(out: seq<TurnEvent>): Option<string> {
    if out == [] then None
    else
      match out[|out| - 1]
      case ItemStarted(handle, _) => Some(handle)
      case ItemCompleted(_, _) => None
      case TurnCompleted(_, _) => None
      case _ => OpenHandle(out[..|out| - 1])
  }

  lemma OpenOne(out: seq<TurnEvent>, more: seq<TurnEvent>)
    requires |more| <= 1
    ensures OpenHandle(out + more)
         == if more == [] then OpenHandle(out)
            else match more[0]
              case ItemStarted(handle, _) => Some(handle)
              case ItemCompleted(_, _) => None
              case TurnCompleted(_, _) => None
              case _ => OpenHandle(out)
  {
    if more == [] {
      assert out + more == out;
    } else {
      assert (out + more)[..|out|] == out;
    }
  }

  lemma {:induction false} ActiveIsOpen(events: seq<ResponseEvent>)
    ensures var (h, out) := AdaptAll(Handles(None, 0), events);
            h.active == OpenHandle(out)
  {
    if events == [] {
      assert OpenHandle([]) == None;
    } else {
      hide OpenHandle, Adapt;
      var n := |events| - 1;
      ActiveIsOpen(events[..n]);
      var (h, out) := AdaptAll(Handles(None, 0), events[..n]);
      ActiveMoves(h, events[n]);
      OpenOne(out, Adapt(h, events[n]).1);
    }
  }

  /** The active handle changes with the event that is told. */
  lemma ActiveMoves(h: Handles, e: ResponseEvent)
    ensures var (after, more) := Adapt(h, e);
            && |more| <= 1
            && after.active == if more == [] then h.active
                               else match more[0]
                                 case ItemStarted(handle, _) => Some(handle)
                                 case ItemCompleted(_, _) => None
                                 case TurnCompleted(_, _) => None
                                 case _ => h.active
  {
    hide Synthetic, SuggestedHandle, FromTranscriptItem;
  }

  /** An assistant message, a reasoning item or a hosted activity, as what it is reported. */
  predicate ReportedAs(item: TranscriptItem, output: SemanticItem) {
    match item
    case Message(_, role, _, _) => role == "assistant" && output == AssistantOutput(item)
    case Reasoning(_, _, _, _) => output == ReasoningOutput(item)
    case HostedActivity(_, _, _, _) => output == HostedOutput(item)
    case _ => false
  }

  predicate IsReported(item: TranscriptItem) {
    (item.Message? && item.role == "assistant") || item.Reasoning? || item.HostedActivity?
  }

  /** The handle that an item brings itself. */
  function OwnId(item: TranscriptItem): Option<string> {
    match item
    case Message(id, _, _, _) => id
    case Reasoning(id, _, _, _) => Some(id)
    case HostedActivity(id, _, _, _) => id
    case _ => None
  }

  /** What is told of each event, behind any events: deltas under the handle of the item that is
      open, and not at all without one; an item begins under its own handle or a new one, and is
      completed under the open handle, else its own, else a new one; calls and the rest as they
      are. */
  predicate ToldAs(open: Option<string>, e: ResponseEvent, more: seq<TurnEvent>) {
    match e
    case Created => more == [TurnCreated]
    case OutputItemAdded(item) =>
      if !IsReported(item) then more == []
      else
        && |more| == 1 && more[0].ItemStarted? && ReportedAs(item, more[0].output)
        && (OwnId(item).Some? ==> more[0].handle == OwnId(item).value)
    case OutputItemDone(item) =>
      if item.ToolCall? then
        more == [TurnToolCall(CallRequest(item.toolCallId, item.callId, item.toolName, item.payload))]
      else if !IsReported(item) then more == []
      else
        && |more| == 1 && more[0].ItemCompleted? && ReportedAs(item, more[0].output)
        && (open.Some? ==> more[0].handle == open.value)
        && (open.None? && OwnId(item).Some? ==> more[0].handle == OwnId(item).value)
    case OutputTextDelta(delta) => more == if open.Some? then [TurnTextDelta(open.value, delta)] else []
    case ProposedPlanDelta(delta) => more == if open.Some? then [TurnPlanDelta(open.value, delta)] else []
    case ProposedPlanDone(text) => more == if open.Some? then [TurnPlanDone(open.value, text)] else []
    case ReasoningSummaryDelta(delta, index) =>
      more == if open.Some? then [TurnSummaryDelta(open.value, delta, index)] else []
    case ReasoningContentDelta(delta, index) =>
      more == if open.Some? then [TurnReasoningDelta(open.value, delta, index)] else []
    case ReasoningSummaryPartAdded(index) => more == if open.Some? then [TurnSummaryPart(open.value, index)] else []
    case ServerReasoningIncluded(included) => more == [TurnServerReasoning(included)]
    case Completed(responseId, usage) => more == [TurnCompleted(responseId, usage)]
    case ModelsEtag(etag) => more == [TurnModelsEtag(etag)]
  }

  lemma EventIsTold(events: seq<ResponseEvent>, e: ResponseEvent)
    ensures var before, after := AdaptAll(Handles(None, 0), events).1, AdaptAll(Handles(None, 0), events + [e]).1;
            before <= after && ToldAs(OpenHandle(before), e, after[|before|..])
  {
    hide OpenHandle, Adapt, ToldAs;
    ActiveIsOpen(events);
    assert (events + [e])[..|events|] == events;
    var (h, out) := AdaptAll(Handles(None, 0), events);
    OneIsTold(h, e);
    assert (out + Adapt(h, e).1)[|out|..] == Adapt(h, e).1;
  }

  lemma OneIsTold(h: Handles, e: ResponseEvent)
    ensures ToldAs(h.active, e, Adapt(h, e).1)
  {
    hide Synthetic;
  }

  // ---------------------------------------------------------------------------
  // Back to response events

  function ToLegacy(t: TurnEvent): Option<ResponseEvent> {
    match t
    case TurnCreated => Some(Created)
    case RuntimeNotice(_) => None
    case ItemStarted(_, output) => Some(OutputItemAdded(output.item))
    case ItemCompleted(_, output) => Some(OutputItemDone(output.item))
    case TurnToolCall(call) => Some(OutputItemDone(CallToItem(call)))
    case TurnTextDelta(_, delta) => Some(OutputTextDelta(delta))
    case TurnPlanDelta(_, delta) => Some(ProposedPlanDelta(delta))
    case TurnPlanDone(_, text) => Some(ProposedPlanDone(text))
    case TurnSummaryDelta(_, delta, index) => Some(ReasoningSummaryDelta(delta, index))
    case TurnReasoningDelta(_, delta, index) => Some(ReasoningContentDelta(delta, index))
    case TurnSummaryPart(_, index) => Some(ReasoningSummaryPartAdded(index))
    case TurnServerReasoning(included) => Some(ServerReasoningIncluded(included))
    case TurnCompleted(responseId, usage) => Some(Completed(responseId, usage))
    case TurnModelsEtag(etag) => Some(ModelsEtag(etag))
  }

  function Legacies(events: seq<TurnEvent>): seq<ResponseEvent> {
    if events == [] then []
    else
      var n := |events| - 1;
      var last := ToLegacy(events[n]);
      Legacies(events[..n]) + if last.Some? then [last.value] else []
  }

  /** An item has been added and neither completed nor cut off since. */
  predicate ItemOpen(events: seq<ResponseEvent>) {
    if events == [] then false
    else match events[|events| - 1]
      case OutputItemAdded(item) => FromTranscriptItem(item).Some? || ItemOpen(events[..|events| - 1])
      case OutputItemDone(item) => FromTranscriptItem(item).None? && ItemOpen(events[..|events| - 1])
      case Completed(_, _) => false
      case _ => ItemOpen(events[..|events| - 1])
  }

  /** The events that have a turn event: items of a known kind, and deltas while an item is open. */
  predicate Adaptable(before: seq<ResponseEvent>, e: ResponseEvent) {
    match e
    case OutputItemAdded(item) => FromTranscriptItem(item).Some?
    case OutputItemDone(item) => item.ToolCall? || FromTranscriptItem(item).Some?
    case Created => true
    case ServerReasoningIncluded(_) => true
    case Completed(_, _) => true
    case ModelsEtag(_) => true
    case _ => ItemOpen(before)
  }

  function Adaptables(events: seq<ResponseEvent>): seq<ResponseEvent> {
    if events == [] then []
    else
      var n := |events| - 1;
      Adaptables(events[..n]) + if Adaptable(events[..n], events[n]) then [events[n]] else []
  }

  lemma LegacyOfOne(h: Handles, e: ResponseEvent)
    ensures var out := Adapt(h, e).1;
            out == [] || (|out| == 1 && ToLegacy(out[0]) == Some(e))
  {
  }

  lemma AdaptsTheAdaptable(h: Handles, before: seq<ResponseEvent>, e: ResponseEvent)
    requires h.active.Some? <==> ItemOpen(before)
    ensures Adapt(h, e).0.active.Some? <==> ItemOpen(before + [e])
    ensures Adapt(h, e).1 != [] <==> Adaptable(before, e)
  {
    hide SuggestedHandle, NewHandle, ItemOpen;
    OpenOneMore(before, e);
    match e
    case OutputItemAdded(_) =>
    case OutputItemDone(_) =>
    case _ =>
  }

  lemma OpenOneMore(before: seq<ResponseEvent>, e: ResponseEvent)
    ensures ItemOpen(before + [e]) <==>
              match e
              case OutputItemAdded(item) => FromTranscriptItem(item).Some? || ItemOpen(before)
              case OutputItemDone(item) => FromTranscriptItem(item).None? && ItemOpen(before)
              case Completed(_, _) => false
              case _ => ItemOpen(before)
  {
    assert (before + [e])[..|before|] == before;
  }

  /** Adapting loses nothing but the events it has no turn event for: the rest maps back to
      the original events, in order. */
  lemma {:induction false} AdaptingRoundTrips(events: seq<ResponseEvent>)
    ensures var (h, out) := AdaptAll(Handles(None, 0), events);
            Legacies(out) == Adaptables(events) && (h.active.Some? <==> ItemOpen(events))
  {
    if events != [] {
      hide ToLegacy, Adapt, Adaptable, ItemOpen, Legacies;
      var n := |events| - 1;
      AdaptingRoundTrips(events[..n]);
      var (h, out) := AdaptAll(Handles(None, 0), events[..n]);
      LegacyOfOne(h, events[n]);
      AdaptsTheAdaptable(h, events[..n], events[n]);
      assert events == events[..n] + [events[n]];
      LegaciesOneMore(out, Adapt(h, events[n]).1);
      assert Adaptables(events[..n]) + [] == Adaptables(events[..n]);
    } else {
      NothingIsOpen();
    }
  }

  lemma NothingIsOpen()
    ensures !ItemOpen([])
  {
  }

  lemma LegaciesOneMore(out: seq<TurnEvent>, more: seq<TurnEvent>)
    ensures more == [] ==> out + more == out
    ensures |more| == 1 && ToLegacy(more[0]).Some? ==> Legacies(out + more) == Legacies(out) + [ToLegacy(more[0]).value]
  {
    hide ToLegacy;
    if |more| == 1 {
      assert (out + more)[..|out|] == out;
    }
  }

  // ---------------------------------------------------------------------------
  // The events of a whole response

  function PlanOf(item: TranscriptItem): Option<string> {
    if IsAssistant(item) then ProposedPlan(JoinOutputText(item.content)) else None
  }

  function ItemEvents(item: TranscriptItem): seq<ResponseEvent> {
    (if FromTranscriptItem(item).Some? then [OutputItemAdded(item)] else [])
    + (if PlanOf(item).Some? then [ProposedPlanDone(PlanOf(item).value)] else [])
    + [OutputItemDone(item)]
  }

  function OutputEvents(output: seq<TranscriptItem>): seq<ResponseEvent> {
    if output == [] then []
    else OutputEvents(output[..|output| - 1]) + ItemEvents(output[|output| - 1])
  }

  /** An assistant message whose output text has this as its last plan block. */
  predicate Proposes(item: TranscriptItem, before: seq<PlanText.Atom>, block: seq<PlanText.Atom>) {
    && item.Message? && item.role == "assistant"
    && PlanText.LineAtoms(false, JoinOutputText(item.content)) == before + [PlanText.StartAtom] + block
    && PlanText.StartAtom !in block
  }

  predicate ProposesNothing(item: TranscriptItem) {
    item.Message? && item.role == "assistant" ==>
      PlanText.StartAtom !in PlanText.LineAtoms(false, JoinOutputText(item.content))
  }

  /** The events of an item of a whole response: a reported item begins and ends, with the text of
      its last plan block between if it is a message that has one; any other only ends. */
  lemma ItemIsTold(item: TranscriptItem)
    ensures !IsReported(item) ==> ItemEvents(item) == [OutputItemDone(item)]
    ensures IsReported(item) && ProposesNothing(item) ==>
              ItemEvents(item) == [OutputItemAdded(item), OutputItemDone(item)]
    ensures forall before, block :: Proposes(item, before, block) ==>
      ItemEvents(item)
      == [OutputItemAdded(item), ProposedPlanDone(PlanChars(block)), OutputItemDone(item)]
  {
    hide PlanChars, LastPlan, PlanText.LineAtoms, JoinOutputText;
    if item.Message? && item.role == "assistant" {
      var atoms := PlanText.LineAtoms(false, JoinOutputText(item.content));
      if PlanText.StartAtom !in atoms {
        LastPlanGrows(None, atoms);
      }
      forall before, block | Proposes(item, before, block)
        ensures ProposedPlan(JoinOutputText(item.content)) == Some(PlanChars(block))
      {
        LastBlockWins(before, block);
      }
    }
  }

  predicate IsSemanticOutputItem(item: TranscriptItem) {
    match item
    case Message(_, role, _, _) => role == ASSISTANT
    case Reasoning(_, _, _, _) => true
    case HostedActivity(_, _, _, _) => true
    case ToolCall(_, _, _, _) => false
    case ToolResult(_, _, _) => false
    case Unknown(_) => false
  }

  method CompletedResponseEvents(responseId: string, output: seq<TranscriptItem>, usage: Option<TokenUsage>,
                                 prefixEvents: seq<ResponseEvent>) returns (events: seq<ResponseEvent>)
    ensures events == prefixEvents + [Created] + OutputEvents(output) + [Completed(responseId, usage)]
  {
    hide ProposedPlan;
    events := prefixEvents + [Created];
    assert output[..0] == [];
    for i := 0 to |output|
      invariant events == prefixEvents + [Created] + OutputEvents(output[..i])
    {
      assert output[..i + 1][..i] == output[..i];
      var item := output[i];
      ghost var before := events;
      if IsSemanticOutputItem(item) {
        events := events + [OutputItemAdded(item)];
      }
      var plan := PlanTextOf(item);
      if plan.Some? {
        events := events + [ProposedPlanDone(plan.value)];
      }
      events := events + [OutputItemDone(item)];
      assert events == before + ItemEvents(item);
    }
    assert output[..|output|] == output;
    events := events + [Completed(responseId, usage)];
  }

  method PlanTextOf(item: TranscriptItem) returns (plan: Option<string>)
    ensures plan == PlanOf(item)
  {
    if !IsAssistant(item) {
      return None;
    }
    var text: string := [];
    ghost var all := item.content;
    var rest := item.content;
    while rest != []
      invariant text + JoinOutputText(rest) == JoinOutputText(all)
      decreases |rest|
    {
      if rest[0].OutputText? {
        text := text + rest[0].text;
      }
      rest := rest[1..];
    }
    assert text == JoinOutputText(all);
    plan := ProposedPlanText.ExtractProposedPlanText(text);
  }

  /** What a receiver should get for one item: a bracket with one handle, or a tool call. */
  function Bracket(next: nat, item: TranscriptItem): (seq<TurnEvent>, nat) {
    var output := FromTranscriptItem(item);
    if output.Some? then
      var (handle, after) := NewHandle(Handles(None, next), output.value);
      ([ItemStarted(handle, output.value)]
       + (if PlanOf(item).Some? then [TurnPlanDone(handle, PlanOf(item).value)] else [])
       + [ItemCompleted(handle, output.value)], after)
    else (if item.ToolCall? then [TurnToolCall(CallFromItem(item).value)] else [], next)
  }

  function Brackets(next: nat, output: seq<TranscriptItem>): (seq<TurnEvent>, nat) {
    if output == [] then ([], next)
    else
      var (out, n) := Brackets(next, output[..|output| - 1]);
      var (more, m) := Bracket(n, output[|output| - 1]);
      (out + more, m)
  }

  lemma AdaptOne(h: Handles, e: ResponseEvent)
    ensures AdaptAll(h, [e]) == Adapt(h, e)
  {
    hide Adapt;
    assert [e][..0] == [];
    assert [] + Adapt(h, e).1 == Adapt(h, e).1;
  }

  lemma ItemIsBracketed(h: Handles, item: TranscriptItem)
    requires h.active.None?
    ensures AdaptAll(h, ItemEvents(item)) == (Handles(None, Bracket(h.next, item).1), Bracket(h.next, item).0)
  {
    hide AdaptAll, PlanOf, SuggestedHandle;
    AdaptOne(h, OutputItemDone(item));
    var output := FromTranscriptItem(item);
    if output.Some? {
      var added, done := [OutputItemAdded(item)], [OutputItemDone(item)];
      var (handle, next) := NewHandle(Handles(None, h.next), output.value);
      AdaptOne(h, OutputItemAdded(item));
      AdaptOne(Handles(Some(handle), next), OutputItemDone(item));
      if PlanOf(item).Some? {
        var plan := ProposedPlanDone(PlanOf(item).value);
        AdaptOne(Handles(Some(handle), next), plan);
        AdaptAllAppend(h, added, [plan]);
        AdaptAllAppend(h, added + [plan], done);
        assert ItemEvents(item) == added + [plan] + done;
      } else {
        AdaptAllAppend(h, added, done);
        assert [ItemStarted(handle, output.value)] + [] == [ItemStarted(handle, output.value)];
        assert ItemEvents(item) == added + done;
      }
    } else {
      PlanNeedsMessage(item);
      assert ItemEvents(item) == [OutputItemDone(item)];
    }
  }

  lemma PlanNeedsMessage(item: TranscriptItem)
    requires FromTranscriptItem(item).None?
    ensures PlanOf(item).None?
  {
  }

  /** Items of a whole response are bracketed in output order, each with one handle. */
  lemma {:induction false} OutputIsBracketed(h: Handles, output: seq<TranscriptItem>)
    requires h.active.None?
    ensures AdaptAll(h, OutputEvents(output)) == (Handles(None, Brackets(h.next, output).1), Brackets(h.next, output).0)
  {
    hide Adapt, ItemEvents, Bracket;
    if output != [] {
      var n := |output| - 1;
      OutputIsBracketed(h, output[..n]);
      var m := AdaptAll(h, OutputEvents(output[..n])).0;
      ItemIsBracketed(m, output[n]);
      AdaptAllAppend(h, OutputEvents(output[..n]), ItemEvents(output[n]));
    }
  }

  /** The handles made up for a list of items without suggested ones. */
  function SyntheticHandles(next: nat, output: seq<TranscriptItem>): seq<string> {
    if output == [] then []
    else
      var n := |output| - 1;
      var item := FromTranscriptItem(output[n]);
      SyntheticHandles(next, output[..n])
      + if item.Some? && SuggestedHandle(item.value).None? then [Synthetic(Brackets(next, output[..n]).1)] else []
  }

  lemma {:induction false} SyntheticHandlesAre(next: nat, output: seq<TranscriptItem>)
    ensures var s := SyntheticHandles(next, output);
            && next + |s| == Brackets(next, output).1
            && (forall i :: 0 <= i < |s| ==> s[i] == Synthetic(next + i))
  {
    if output != [] {
      hide PlanOf, Synthetic;
      SyntheticHandlesAre(next, output[..|output| - 1]);
    }
  }

  /** No two items get the same made-up handle. */
  lemma SyntheticHandlesDiffer(next: nat, output: seq<TranscriptItem>, i: nat, j: nat)
    requires i < j < |SyntheticHandles(next, output)|
    ensures SyntheticHandles(next, output)[i] != SyntheticHandles(next, output)[j]
  {
    hide SyntheticHandles, Synthetic, Brackets;
    SyntheticHandlesAre(next, output);
    if Synthetic(next + i) == Synthetic(next + j) {
      SyntheticInjective(next + i, next + j);
    }
  }

  /** The handles of the items a receiver sees started that came without one. */
  function StartedHandles(events: seq<TurnEvent>): seq<string> {
    if events == [] then []
    else
      var n := |events| - 1;
      StartedHandles(events[..n])
      + if events[n].ItemStarted? && SuggestedHandle(events[n].output).None? then [events[n].handle] else []
  }

  lemma {:induction false} StartedHandlesAppend(a: seq<TurnEvent>, b: seq<TurnEvent>)
    ensures StartedHandles(a + b) == StartedHandles(a) + StartedHandles(b)
  {
    hide SuggestedHandle;
    if b == [] {
      assert a + b == a;
    } else {
      var n := |b| - 1;
      assert (a + b)[..|a| + n] == a + b[..n];
      StartedHandlesAppend(a, b[..n]);
      Associative(StartedHandles(a), StartedHandles(b[..n]),
                  if b[n].ItemStarted? && SuggestedHandle(b[n].output).None? then [b[n].handle] else []);
    }
  }

  lemma BracketStarts(next: nat, item: TranscriptItem)
    ensures var output := FromTranscriptItem(item);
            StartedHandles(Bracket(next, item).0)
              == if output.Some? && SuggestedHandle(output.value).None? then [Synthetic(next)] else []
  {
    hide PlanOf, SuggestedHandle, Synthetic;
    var out := Bracket(next, item).0;
    if out != [] {
      var rest := out[1..];
      assert out == [out[0]] + rest;
      StartedHandlesAppend([out[0]], rest);
      assert [out[0]][..0] == [];
      NothingStarts(rest);
    }
  }

  lemma {:induction false} NothingStarts(events: seq<TurnEvent>)
    requires forall i :: 0 <= i < |events| ==> !events[i].ItemStarted?
    ensures StartedHandles(events) == []
  {
    if events != [] {
      NothingStarts(events[..|events| - 1]);
    }
  }

  lemma {:induction false} StartedAreSynthetic(next: nat, output: seq<TranscriptItem>)
    ensures StartedHandles(Brackets(next, output).0) == SyntheticHandles(next, output)
  {
    hide Bracket, SuggestedHandle, Synthetic;
    if output != [] {
      var n := |output| - 1;
      StartedAreSynthetic(next, output[..n]);
      var (out, m) := Brackets(next, output[..n]);
      BracketStarts(m, output[n]);
      StartedHandlesAppend(out, Bracket(m, output[n]).0);
    }
  }

  /** No two items of a whole response are started under the same made-up handle. */
  lemma StartedHandlesDiffer(next: nat, output: seq<TranscriptItem>, i: nat, j: nat)
    requires i < j < |StartedHandles(Brackets(next, output).0)|
    ensures var handles := StartedHandles(Brackets(next, output).0);
            handles[i] != handles[j]
  {
    hide StartedHandles, Brackets, SyntheticHandles;
    StartedAreSynthetic(next, output);
    SyntheticHandlesDiffer(next, output, i, j);
  }

  /** The whole stream of a whole response: the prefix, Created, one bracket or call per item, and
      Completed. */
  lemma WholeResponseIsBracketed(prefixEvents: seq<ResponseEvent>, output: seq<TranscriptItem>, responseId: string,
                                 usage: Option<TokenUsage>)
    requires AdaptAll(Handles(None, 0), prefixEvents).0.active.None?
    ensures var (h, out) := AdaptAll(Handles(None, 0), prefixEvents);
            var events := prefixEvents + [Created] + OutputEvents(output) + [Completed(responseId, usage)];
            AdaptAll(Handles(None, 0), events).1
              == out + [TurnCreated] + Brackets(h.next, output).0 + [TurnCompleted(responseId, usage)]
  {
    hide AdaptAll, OutputEvents, Brackets;
    var start := Handles(None, 0);
    var (h, out) := AdaptAll(start, prefixEvents);
    AdaptAllAppend(start, prefixEvents, [Created]);
    AdaptOne(h, Created);
    AdaptAllAppend(start, prefixEvents + [Created], OutputEvents(output));
    OutputIsBracketed(h, output);
    AdaptAllAppend(start, prefixEvents + [Created] + OutputEvents(output), [Completed(responseId, usage)]);
    AdaptOne(Handles(None, Brackets(h.next, output).1), Completed(responseId, usage));
  }
}
