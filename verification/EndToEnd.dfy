/** From the provider's chunks to the next chat request: chat responses are assembled, perhaps
    aggregated, adapted and retried; a turn records their items and the results of its calls; the
    request built from any conversation of user inputs and turns, successful or not, has every
    tool_calls message followed immediately by exactly its tool messages, unless a turn keeps a
    text between two of its calls or leaves a call without a result
    (src/llm/src/runtime_client.rs:241-292, src/llm/src/runtime.rs:440-536,
    src/core/src/kernel.rs:108-163, src/llm/src/api/requests/chat.rs:213-248, 372-408). */
module EndToEnd {
  import opened Basics
  import opened Transcript
  import opened ChatWire
  import opened ChatAssembler
  import opened ChatProtocol
  import opened ChatAgreement
  import opened CompletedChat
  import opened SemanticEvents
  import opened OneChoice
  import Aggregator
  import Retry
  import Kernel = TurnKernel
  import Scheduling = ToolScheduling
  import opened ChatRequest
  import opened ToolAdjacency

  // ---------------------------------------------------------------------------
  // One attempt

  /** An attempt at a chat turn: the request fails, or its response is streamed and aggregated (the
      default), or streamed raw (`show_raw_agent_reasoning`), or read as a whole. */
  datatype ChatAttempt =
    | NoStream(error: Retry.LlmError)
    | AggregatedStream(polls: seq<Poll>)
    | RawStream(polls: seq<Poll>)
    | WholeResponse(body: CompletedBody)

  function ErrorOf(error: ApiError): Retry.LlmError {
    match error
    case StreamError(message) => Retry.Disconnected(message)
    case ContextWindowExceeded => Retry.OtherError("context window exceeded")
    case InvalidRequest(message) => Retry.OtherError("invalid request: " + message)
  }

  /** The items of a whole response, or why there are none. */
  function WholeItems(body: CompletedBody): Items {
    if body.choices.None? then Err(MISSING_CHOICES) else ChoicesItems(body.choices.value)
  }

  /** What the adapter gets of an attempt, or why it gets nothing. */
  function LogOf(c: ChatAttempt): Result<seq<Output>, Retry.LlmError> {
    match c
    case NoStream(error) => Err(error)
    case AggregatedStream(polls) => Ok(Aggregated(polls))
    case RawStream(polls) => Ok(ProcessAll(polls).sent)
    case WholeResponse(body) =>
      var items := WholeItems(body);
      if items.Err? then Err(ErrorOf(items.error))
      else Ok(Aggregator.Oks([Created] + OutputEvents(items.value) + [Completed(OrEmpty(body.id), body.usage)]))
  }

  /** What the aggregated stream of an assembled response yields. */
  function Aggregated(polls: seq<Poll>): seq<Output> {
    Aggregator.Aggregate(Aggregator.AggregatedOnly, Aggregator.NO_TOTALS, ProcessAll(polls).sent).1
  }

  /** The adapter over a stream: errors pass through. */
  function AdaptLog(h: Handles, log: seq<Output>): (Handles, seq<Retry.Sent>) {
    if log == [] then (h, [])
    else
      var (m, out) := AdaptLog(h, log[..|log| - 1]);
      match log[|log| - 1]
      case Err(error) => (m, out + [Err(ErrorOf(error))])
      case Ok(e) => (Adapt(m, e).0, out + Retry.Oks(Adapt(m, e).1))
  }

  function AttemptOf(c: ChatAttempt): Retry.Attempt {
    var log := LogOf(c);
    if log.Err? then Retry.Refused(log.error) else Retry.Streamed(AdaptLog(Handles(None, 0), log.value).1)
  }

  /** The items an attempt finishes. */
  function AttemptItems(c: ChatAttempt): seq<TranscriptItem> {
    var log := LogOf(c);
    if log.Err? then [] else DoneItems(log.value)
  }

  // ---------------------------------------------------------------------------
  // The shape of what the adapter gets

  /** An event that finishes nothing but reasoning, calls and messages of text. */
  predicate SaidOutput(o: Output) {
    o.Ok? && !o.value.Completed? && (o.value.OutputItemDone? ==> IsSaid(o.value.item))
  }

  predicate SaidOutputs(log: seq<Output>) {
    forall i :: 0 <= i < |log| ==> SaidOutput(log[i])
  }

  /** Such events, and then the end. */
  predicate EndsLog(log: seq<Output>) {
    log != [] && SaidOutputs(log[..|log| - 1]) && (log[|log| - 1].Err? || log[|log| - 1].value.Completed?)
  }

  lemma TextsHaveNoImage(texts: seq<string>)
    ensures IsTextMessage(AssistantMessage(texts))
  {
  }

  lemma {:induction false} WatchedIsSaid(log: seq<Output>)
    requires Watch(NOTHING_SEEN, log).Some? && !Watch(NOTHING_SEEN, log).value.ended
    ensures SaidOutputs(log)
  {
    if log != [] {
      hide PlanReported, IsTextMessage;
      var n := |log| - 1;
      WatchedIsSaid(log[..n]);
      if log[n].Ok? && log[n].value.OutputItemDone? && log[n].value.item.Message? {
        TextsHaveNoImage(Watch(NOTHING_SEEN, log[..n]).value.assistant.value);
      }
      assert forall i :: 0 <= i < n ==> log[i] == log[..n][i];
    }
  }

  lemma FrontIsOpen(log: seq<Output>)
    requires log != [] && Watch(NOTHING_SEEN, log).Some?
    ensures var front := log[..|log| - 1];
            Watch(NOTHING_SEEN, front).Some? && !Watch(NOTHING_SEEN, front).value.ended
  {
  }

  lemma RawEnds(polls: seq<Poll>)
    ensures EndsLog(ProcessAll(polls).sent)
  {
    hide ProcessAll, Observe, SaidOutputs, Watch;
    var log := ProcessAll(polls).sent;
    OneTerminalAndLast(polls);
    EveryRunIsWellFormed(polls);
    FrontIsOpen(log);
    WatchedIsSaid(log[..|log| - 1]);
  }

  lemma {:induction false} PassedAreSaid(log: seq<Output>)
    requires SaidOutputs(log)
    ensures SaidOutputs(Aggregator.PassedOn(log))
    ensures NoMessages(DoneItems(Aggregator.PassedOn(log)))
  {
    hide SaidOutput, DoneItems, NoMessages, Aggregator.Passes;
    if log != [] {
      var n := |log| - 1;
      PassedAreSaid(log[..n]);
      var passed := Aggregator.PassedOn(log[..n]);
      assert SaidOutput(log[n]) && passed + [] == passed;
      if Aggregator.Passes(log[n]) {
        OneMorePassed(passed, log[n]);
      }
    } else {
      NothingDone([]);
      NoneIsMessage();
    }
  }

  lemma NoneIsMessage()
    ensures NoMessages([])
  {
  }

  lemma OneMorePassed(passed: seq<Output>, o: Output)
    requires SaidOutputs(passed) && NoMessages(DoneItems(passed)) && SaidOutput(o) && Aggregator.Passes(o)
    ensures SaidOutputs(passed + [o]) && NoMessages(DoneItems(passed + [o]))
  {
    hide SaidOutput, DoneItems, Aggregator.Passes;
    DoneItemsOne(passed, o);
    PassedIsNoMessage(o);
  }

  lemma PassedIsNoMessage(o: Output)
    requires SaidOutput(o) && Aggregator.Passes(o)
    ensures o.Ok? && (o.value.OutputItemDone? ==> !o.value.item.Message?)
  {
  }

  predicate NoMessages(items: seq<TranscriptItem>) {
    forall i :: 0 <= i < |items| ==> !items[i].Message?
  }

  /** Only the last item may be a message. */
  predicate MessageLast(items: seq<TranscriptItem>) {
    items != [] ==> NoMessages(items[..|items| - 1])
  }

  /** The aggregated log: what passes, the summary, the end. */
  lemma AggregatedIs(polls: seq<Poll>) returns (passed: seq<Output>, summary: seq<Output>, end: Output)
    ensures Aggregated(polls) == passed + summary + [end] && SaidOutputs(passed) && NoMessages(DoneItems(passed))
    ensures if end.Err? then summary == []
            else end.value.Completed? && exists t :: summary == Aggregator.SummaryItems(t)
    ensures end.Ok? <==> Completes(ProcessAll(polls).sent)
  {
    hide ProcessAll, Observe, SaidOutputs, Watch, DoneItems, Aggregator.SummaryItems;
    var log := ProcessAll(polls).sent;
    OneTerminalAndLast(polls);
    EveryRunIsWellFormed(polls);
    var front := log[..|log| - 1];
    FrontIsOpen(log);
    WatchedIsSaid(front);
    PassedAreSaid(front);
    Aggregator.AggregateBeforeEnd(front);
    passed, end := Aggregator.PassedOn(front), log[|log| - 1];
    if end.Ok? {
      Aggregator.AggregatesAssembledStream(polls);
      var t := Aggregator.Totals(Aggregator.TextOf(front), Aggregator.ReasoningOf(front));
      summary := Aggregator.SummaryItems(t);
      Associative(passed, summary, [end]);
    } else {
      summary := [];
      assert passed + [] == passed;
    }
  }

  /** The joined reasoning, then the joined message. */
  lemma SummaryIsSaid(t: Aggregator.Totals)
    ensures SaidOutputs(Aggregator.SummaryItems(t)) && MessageLast(DoneItems(Aggregator.SummaryItems(t)))
  {
    hide DoneItems, IsTextMessage;
    var summary := Aggregator.SummaryItems(t);
    var thought := if t.reasoning == [] then [] else [Ok(OutputItemDone(ReasoningItem([t.reasoning])))];
    var spoken := if t.text == [] then [] else [Ok(OutputItemDone(AssistantMessage([t.text])))];
    TextsHaveNoImage([t.text]);
    assert summary == thought + spoken;
    NothingDone([]);
    DoneItemsOne([], Ok(OutputItemDone(ReasoningItem([t.reasoning]))));
    DoneItemsOne([], Ok(OutputItemDone(AssistantMessage([t.text]))));
    DoneItemsAppend(thought, spoken);
    assert [] + thought == thought && [] + spoken == spoken;
  }

  lemma AggregatedEnds(polls: seq<Poll>)
    ensures EndsLog(Aggregated(polls)) && MessageLast(DoneItems(Aggregated(polls)))
    ensures !HasEnd(Aggregated(polls)) ==> NoMessages(DoneItems(Aggregated(polls)))
  {
    hide SaidOutput, Aggregated, Aggregator.SummaryItems, DoneItems, NoMessages;
    var passed, summary, end := AggregatedIs(polls);
    if end.Ok? {
      var t :| summary == Aggregator.SummaryItems(t);
      SummaryIsSaid(t);
    } else {
      NothingDone([]);
      NothingIsLast();
    }
    var log := Aggregated(polls);
    assert log[..|log| - 1] == passed + summary;
    DoneItemsOne(passed + summary, end);
    DoneItemsAppend(passed, summary);
    MessageStaysLast(DoneItems(passed), DoneItems(summary));
    assert DoneItems(passed + summary) + [] == DoneItems(passed + summary);
    assert DoneItems(passed) + [] == DoneItems(passed);
  }

  lemma NothingIsLast()
    ensures MessageLast([])
  {
  }

  lemma MessageStaysLast(a: seq<TranscriptItem>, b: seq<TranscriptItem>)
    requires NoMessages(a) && MessageLast(b)
    ensures MessageLast(a + b)
  {
    var all := a + b;
    if b == [] {
      assert all == a;
    } else {
      assert all[..|all| - 1] == a + b[..|b| - 1];
    }
  }

  /** The log ends with Completed. */
  predicate HasEnd(log: seq<Output>) {
    log != [] && log[|log| - 1].Ok?
  }

  lemma {:induction false} OutputIsSaid(output: seq<TranscriptItem>)
    requires AllSaid(output)
    ensures var log := Aggregator.Oks(OutputEvents(output));
            SaidOutputs(log) && DoneItems(log) == output
  {
    hide IsSaid, PlanOf, ItemEvents, SaidOutput, DoneItems;
    if output == [] {
      NothingDone([]);
    } else {
      var n := |output| - 1;
      assert AllSaid(output[..n]) && IsSaid(output[n]);
      OutputIsSaid(output[..n]);
      var front, more := Aggregator.Oks(OutputEvents(output[..n])), Aggregator.Oks(ItemEvents(output[n]));
      assert Aggregator.Oks(OutputEvents(output)) == front + more;
      ItemIsSaid(output[n]);
      DoneItemsAppend(front, more);
      assert output[..n] + [output[n]] == output;
    }
  }

  lemma ItemIsSaid(item: TranscriptItem)
    requires IsSaid(item)
    ensures SaidOutputs(Aggregator.Oks(ItemEvents(item))) && DoneItems(Aggregator.Oks(ItemEvents(item))) == [item]
  {
    hide PlanOf, IsSaid, DoneItems, FromTranscriptItem;
    var begun := if FromTranscriptItem(item).Some? then [OutputItemAdded(item)] else [];
    var planned := if PlanOf(item).Some? then [ProposedPlanDone(PlanOf(item).value)] else [];
    var front := Aggregator.Oks(begun + planned);
    assert Aggregator.Oks(ItemEvents(item)) == front + [Ok(OutputItemDone(item))];
    NothingDone(front);
    DoneItemsOne(front, Ok(OutputItemDone(item)));
  }

  lemma {:induction false} ChoicesAreSaid(choices: seq<Choice>)
    requires ChoicesItems(choices).Ok?
    ensures AllSaid(ChoicesItems(choices).value)
  {
    if choices != [] {
      hide ChoiceItems, IsSaid;
      var n := |choices| - 1;
      ChoicesAreSaid(choices[..n]);
      ChoiceIsSaid(choices[n]);
    }
  }

  lemma ChoiceIsSaid(choice: Choice)
    requires ChoiceItems(choice).Ok?
    ensures AllSaid(ChoiceItems(choice).value)
  {
    hide RefusalError, WholeCallItems, IsTextMessage;
    if choice.message.Some? {
      var message := choice.message.value;
      WholeCallsAreCalls(OrEmpty(message.toolCalls));
      if HasContent(message) {
        TextsHaveNoImage(CompletedTexts(message.content.value));
      }
    }
  }

  lemma WholeEnds(body: CompletedBody)
    requires WholeItems(body).Ok?
    ensures var log := LogOf(WholeResponse(body));
            log.Ok? && EndsLog(log.value) && HasEnd(log.value) && DoneItems(log.value) == WholeItems(body).value
  {
    hide SaidOutput, OutputEvents, DoneItems, IsSaid;
    var items := WholeItems(body).value;
    ChoicesAreSaid(body.choices.value);
    OutputIsSaid(items);
    var log := LogOf(WholeResponse(body)).value;
    var start, end := [Ok(Created)], [Ok(Completed(OrEmpty(body.id), body.usage))];
    var said := Aggregator.Oks(OutputEvents(items));
    OksBetween(OutputEvents(items), Completed(OrEmpty(body.id), body.usage));
    hide Aggregator.Oks, WholeItems, SaidOutputs;
    EndsBetween(start, said, end);
    DoneBetween(start, said, end, items);
  }

  lemma OksBetween(events: seq<ResponseEvent>, last: ResponseEvent)
    ensures Aggregator.Oks([Created] + events + [last]) == [Ok(Created)] + Aggregator.Oks(events) + [Ok(last)]
  {
  }

  lemma EndsBetween(start: seq<Output>, said: seq<Output>, end: seq<Output>)
    requires |start| == |end| == 1 && start[0] == Ok(Created) && end[0].Ok? && end[0].value.Completed?
    requires SaidOutputs(said)
    ensures EndsLog(start + said + end) && HasEnd(start + said + end)
  {
    hide SaidOutput;
    CreatedIsSaid();
    var log := start + said + end;
    assert log[..|log| - 1] == start + said && log[|log| - 1] == end[0];
  }

  lemma DoneBetween(start: seq<Output>, said: seq<Output>, end: seq<Output>, items: seq<TranscriptItem>)
    requires |start| == |end| == 1 && start[0] == Ok(Created) && end[0].Ok? && end[0].value.Completed?
    requires DoneItems(said) == items
    ensures DoneItems(start + said + end) == items
  {
    NothingDone(start);
    NothingDone(end);
    hide DoneItems;
    DoneItemsAppend(start, said);
    DoneItemsAppend(start + said, end);
    assert [] + items + [] == items;
  }

  lemma CreatedIsSaid()
    ensures SaidOutput(Ok(Created))
  {
  }

  lemma LogEnds(c: ChatAttempt)
    ensures LogOf(c).Ok? ==> EndsLog(LogOf(c).value)
  {
    hide EndsLog, ProcessAll, Aggregated;
    match c
    case NoStream(_) =>
    case AggregatedStream(polls) => AggregatedEnds(polls);
    case RawStream(polls) => RawEnds(polls);
    case WholeResponse(body) => if WholeItems(body).Ok? { WholeEnds(body); }
  }

  // ---------------------------------------------------------------------------
  // The turn events of an attempt

  predicate SaidEvent(e: TurnEvent) {
    && !e.TurnCompleted? && !e.RuntimeNotice?
    && (e.ItemCompleted? ==> IsSaid(e.output.item) && !e.output.item.ToolCall?)
    && (e.TurnToolCall? ==> e.call.payload.JsonArguments?)
  }

  predicate SaidEvents(events: seq<TurnEvent>) {
    forall i :: 0 <= i < |events| ==> SaidEvent(events[i])
  }

  lemma SaidEventsAppend(a: seq<TurnEvent>, b: seq<TurnEvent>)
    requires SaidEvents(a) && SaidEvents(b)
    ensures SaidEvents(a + b)
  {
    hide SaidEvent;
  }

  /** The events of what is said, and the items they finish. */
  lemma {:induction false} SaidAdapts(h: Handles, log: seq<Output>) returns (events: seq<TurnEvent>)
    requires SaidOutputs(log)
    ensures AdaptLog(h, log).1 == Retry.Oks(events) && SaidEvents(events)
    ensures Kernel.TurnItems(events) == DoneItems(log)
  {
    events := [];
    if log != [] {
      hide SaidEvent, SaidOutput, Adapt, Kernel.TurnItems;
      var n := |log| - 1;
      var before := SaidAdapts(h, log[..n]);
      assert SaidOutput(log[n]);
      var m := AdaptLog(h, log[..n]).0;
      SaidAdaptsOne(m, log[n]);
      var more := Adapt(m, log[n].value).1;
      Retry.OksAppend(before, more);
      SaidEventsAppend(before, more);
      TurnItemsAppend(before, more);
      events := before + more;
    } else {
      assert Kernel.TurnItems([]) == [];
    }
  }

  lemma SaidAdaptsOne(h: Handles, o: Output)
    requires SaidOutput(o)
    ensures o.Ok? && SaidEvents(Adapt(h, o.value).1)
    ensures Kernel.TurnItems(Adapt(h, o.value).1) == if o.value.OutputItemDone? then [o.value.item] else []
  {
    hide SuggestedHandle, IsSaid;
    var out := Adapt(h, o.value).1;
    if o.value.OutputItemDone? {
      DoneAdapts(h, o.value.item);
    } else if out != [] {
      OneEventItems(out[0]);
      assert out == [out[0]];
    }
  }

  lemma OneEventItems(e: TurnEvent)
    ensures Kernel.TurnItems([e]) == Kernel.EventItems(e)
  {
    assert [e][..0] == [];
  }

  lemma DoneAdapts(h: Handles, item: TranscriptItem)
    requires IsSaid(item)
    ensures var out := Adapt(h, OutputItemDone(item)).1;
            SaidEvents(out) && Kernel.TurnItems(out) == [item]
  {
    hide Kernel.TurnItems, HasImage;
    var out := Adapt(h, OutputItemDone(item)).1;
    assert FromTranscriptItem(item).Some? || item.ToolCall?;
    assert |out| == 1;
    assert out == [out[0]];
    OneEventItems(out[0]);
  }

  /** How the events of an attempt look: what is said, and the completion if it comes. */
  predicate AttemptShape(events: seq<TurnEvent>, said: seq<TurnEvent>, end: seq<TurnEvent>) {
    && events == said + end && SaidEvents(said)
    && (end == [] || (|end| == 1 && end[0].TurnCompleted?))
  }

  lemma {:induction false} AdaptLogAppend(h: Handles, a: seq<Output>, b: seq<Output>)
    ensures AdaptLog(h, a + b).1 == AdaptLog(h, a).1 + AdaptLog(AdaptLog(h, a).0, b).1
    ensures AdaptLog(h, a + b).0 == AdaptLog(AdaptLog(h, a).0, b).0
  {
    hide Adapt, ErrorOf;
    var (m, out) := AdaptLog(h, a);
    if b == [] {
      assert a + b == a && out + [] == out;
    } else {
      var k := |b| - 1;
      assert (a + b)[..|a| + k] == a + b[..k];
      AdaptLogAppend(h, a, b[..k]);
      var reached := AdaptLog(m, b[..k]).0;
      var more := if b[k].Err? then [Err(ErrorOf(b[k].error))] else Retry.Oks(Adapt(reached, b[k].value).1);
      Associative(out, AdaptLog(m, b[..k]).1, more);
    }
  }

  lemma AdaptLogOne(h: Handles, o: Output)
    ensures AdaptLog(h, [o]).1 == if o.Err? then [Err(ErrorOf(o.error))] else Retry.Oks(Adapt(h, o.value).1)
  {
    assert [o][..0] == [];
  }

  lemma AttemptEventsShape(c: ChatAttempt) returns (said: seq<TurnEvent>, end: seq<TurnEvent>)
    ensures AttemptShape(Retry.AttemptEvents(AttemptOf(c)), said, end)
    ensures Kernel.TurnItems(said) == AttemptItems(c)
    ensures end != [] <==> LogOf(c).Ok? && HasEnd(LogOf(c).value)
  {
    hide AdaptLog, LogOf, SaidEvents, SaidOutputs, Retry.Oks, Kernel.TurnItems, DoneItems;
    said, end := [], [];
    LogEnds(c);
    if LogOf(c).Err? {
      NothingIsSaid();
      return;
    }
    var start, log := Handles(None, 0), LogOf(c).value;
    var n := |log| - 1;
    var front, last := log[..n], log[n];
    assert front + [last] == log;
    said := SaidAdapts(start, front);
    var m := AdaptLog(start, front).0;
    AdaptLogAppend(start, front, [last]);
    AdaptLogOne(m, last);
    DoneItemsOne(front, last);
    assert DoneItems(front) + [] == DoneItems(front);
    var outputs := AdaptLog(start, log).1;
    if last.Err? {
      StopsAtError(outputs, said, ErrorOf(last.error));
      assert said + [] == said;
    } else {
      end := Adapt(m, last.value).1;
      Retry.OksAppend(said, end);
      NeverStops(outputs, said + end);
    }
  }

  lemma NothingIsSaid()
    ensures SaidEvents([]) && Kernel.TurnItems([]) == []
  {
  }

  lemma StopsAtError(outputs: seq<Retry.Sent>, events: seq<TurnEvent>, error: Retry.LlmError)
    requires outputs == Retry.Oks(events) + [Err(error)]
    ensures Retry.Events(outputs) == events
  {
    Retry.EventsAre(outputs, events);
  }

  lemma NeverStops(outputs: seq<Retry.Sent>, events: seq<TurnEvent>)
    requires outputs == Retry.Oks(events)
    ensures Retry.Events(outputs) == events
  {
    Retry.EventsAre(outputs, events);
  }

  // ---------------------------------------------------------------------------
  // The events of a whole turn

  function Attempts(streams: nat -> ChatAttempt): nat -> Retry.Attempt {
    (k: nat) => AttemptOf(streams(k))
  }

  /** The items of the first `n` attempts. */
  function ItemsOfAttempts(streams: nat -> ChatAttempt, n: nat): seq<TranscriptItem> {
    if n == 0 then [] else ItemsOfAttempts(streams, n - 1) + AttemptItems(streams(n - 1))
  }

  lemma ShapeCompletes(events: seq<TurnEvent>, said: seq<TurnEvent>, end: seq<TurnEvent>)
    requires AttemptShape(events, said, end)
    ensures Retry.HasCompleted(events) <==> end != []
    ensures end == [] ==> events == said
    ensures forall i :: 0 <= i < |events| ==> !events[i].RuntimeNotice?
    ensures forall i :: 0 <= i < |events| - 1 ==> !events[i].TurnCompleted?
  {
    if end != [] {
      assert events[|events| - 1] == end[0];
    } else {
      assert events == said + [] == said;
    }
    forall i | 0 <= i < |events|
      ensures !events[i].RuntimeNotice? && (i < |events| - |end| ==> !events[i].TurnCompleted?)
    {
      if i < |said| { assert SaidEvent(said[i]); }
    }
  }

  lemma AttemptsHaveNoNotices(streams: nat -> ChatAttempt)
    ensures Retry.NoNotices(Attempts(streams))
  {
    forall k: nat, i | 0 <= i < |Retry.AttemptEvents(Attempts(streams)(k))|
      ensures !Retry.AttemptEvents(Attempts(streams)(k))[i].RuntimeNotice?
    {
      hide AttemptOf, AttemptShape;
      var said, end := AttemptEventsShape(streams(k));
      ShapeCompletes(Retry.AttemptEvents(AttemptOf(streams(k))), said, end);
    }
  }

  lemma {:induction false} FailedAttemptsAreSaid(streams: nat -> ChatAttempt, n: nat)
    requires forall k :: 0 <= k < n ==> !Retry.HasCompleted(Retry.AttemptEvents(Attempts(streams)(k)))
    ensures SaidEvents(Retry.AllEvents(Attempts(streams), n))
    ensures Kernel.TurnItems(Retry.AllEvents(Attempts(streams), n)) == ItemsOfAttempts(streams, n)
  {
    hide AttemptOf, AttemptShape, SaidEvents, Retry.HasCompleted, Kernel.TurnItems, AttemptItems;
    if n == 0 {
      NothingIsSaid();
    } else {
      FailedAttemptsAreSaid(streams, n - 1);
      var last := Retry.AttemptEvents(AttemptOf(streams(n - 1)));
      var said, end := AttemptEventsShape(streams(n - 1));
      ShapeCompletes(last, said, end);
      assert !Retry.HasCompleted(Retry.AttemptEvents(Attempts(streams)(n - 1)));
      ShapeIsSaid(last, said, end);
      SaidEventsAppend(Retry.AllEvents(Attempts(streams), n - 1), last);
      TurnItemsAppend(Retry.AllEvents(Attempts(streams), n - 1), last);
    }
  }

  lemma ShapeIsSaid(events: seq<TurnEvent>, said: seq<TurnEvent>, end: seq<TurnEvent>)
    requires AttemptShape(events, said, end)
    ensures SaidEvents(said) && events == said + end && (end == [] || (|end| == 1 && end[0].TurnCompleted?))
  {
  }

  /** How many attempts a turn makes. */
  function AttemptsMade(g: Retry.Setting, streams: nat -> ChatAttempt, free: bool): nat {
    Retry.Run(g, Attempts(streams), free).1
  }

  /** Everything a turn's task tells, failed attempts included, has the shape of one attempt, and
      its items are those of the attempts; only the last one may have completed. */
  lemma ToldShape(g: Retry.Setting, streams: nat -> ChatAttempt, free: bool)
    returns (said: seq<TurnEvent>, end: seq<TurnEvent>)
    ensures AttemptShape(Retry.Told(Retry.Run(g, Attempts(streams), free).0.log), said, end)
    ensures var made := AttemptsMade(g, streams, free);
            && 0 < made && Kernel.TurnItems(said) == ItemsOfAttempts(streams, made)
            && forall k :: 0 <= k < made - 1 ==> !Retry.HasCompleted(Retry.AttemptEvents(Attempts(streams)(k)))
  {
    hide Retry.Run, Retry.AllEvents, Retry.AttemptEvents, Retry.HasCompleted, AttemptOf, SaidEvents, Kernel.TurnItems,
      AttemptItems;
    AttemptsHaveNoNotices(streams);
    Retry.RunTellsAll(g, Attempts(streams), free);
    var (q, made) := Retry.Run(g, Attempts(streams), free);
    FailedAttemptsAreSaid(streams, made - 1);
    var failed := Retry.AllEvents(Attempts(streams), made - 1);
    said, end := AttemptEventsShape(streams(made - 1));
    SaidEventsAppend(failed, said);
    Retry.AllEventsOneMore(Attempts(streams), made);
    Associative(failed, said, end);
    TurnItemsAppend(failed, said);
    said := failed + said;
  }

  // ---------------------------------------------------------------------------
  // What the kernel reads of it

  function PollsOf(log: seq<Retry.Sent>): seq<Kernel.StreamPoll> {
    seq(|log|, i requires 0 <= i < |log| =>
      match log[i]
      case Ok(e) => Kernel.Event(e)
      case Err(error) => Kernel.Failed(Retry.Describe(error)))
  }

  lemma {:induction false} ReadIsPrefix(polls: seq<Kernel.StreamPoll>)
    ensures var events := Kernel.EventsRead(polls);
            forall i :: 0 <= i < |events| ==> polls[i] == Kernel.Event(events[i])
  {
    if polls != [] && polls[0].Event? && !polls[0].event.TurnCompleted? {
      ReadIsPrefix(polls[1..]);
      var rest := Kernel.EventsRead(polls[1..]);
      assert Kernel.EventsRead(polls) == [polls[0].event] + rest;
      forall i | 0 <= i < |rest| + 1
        ensures polls[i] == Kernel.Event(([polls[0].event] + rest)[i])
      {
        if i > 0 { assert polls[i] == polls[1..][i - 1]; }
      }
    }
  }

  lemma {:induction false} ToldAppend(a: seq<Retry.Sent>, b: seq<Retry.Sent>)
    ensures Retry.Told(a + b) == Retry.Told(a) + Retry.Told(b)
  {
    if b == [] {
      assert a + b == a;
    } else {
      var n := |b| - 1;
      assert (a + b)[..|a| + n] == a + b[..n];
      ToldAppend(a, b[..n]);
      Associative(Retry.Told(a), Retry.Told(b[..n]),
                  if b[n].Ok? && !b[n].value.RuntimeNotice? then [b[n].value] else []);
    }
  }

  lemma ToldOneMore(events: seq<TurnEvent>)
    requires events != []
    ensures var n := |events| - 1;
            Retry.Told(Retry.Oks(events))
              == Retry.Told(Retry.Oks(events[..n])) + if events[n].RuntimeNotice? then [] else [events[n]]
  {
    var n := |events| - 1;
    assert Retry.Oks(events)[..n] == Retry.Oks(events[..n]);
  }

  lemma TurnOneMore(events: seq<TurnEvent>, e: TurnEvent)
    ensures Kernel.TurnItems(events + [e]) == Kernel.TurnItems(events) + Kernel.EventItems(e)
    ensures Kernel.TurnCalls(events + [e]) == Kernel.TurnCalls(events) + if e.TurnToolCall? then [e.call] else []
  {
    assert (events + [e])[..|events|] == events;
  }

  /** Notices add nothing to a turn. */
  lemma {:induction false} NoticesAddNothing(events: seq<TurnEvent>)
    ensures Kernel.TurnItems(Retry.Told(Retry.Oks(events))) == Kernel.TurnItems(events)
    ensures Kernel.TurnCalls(Retry.Told(Retry.Oks(events))) == Kernel.TurnCalls(events)
  {
    hide Retry.Told, Retry.Oks, Kernel.TurnItems, Kernel.TurnCalls;
    if events == [] {
      NothingIsTold();
    } else {
      var n := |events| - 1;
      NoticesAddNothing(events[..n]);
      ToldOneMore(events);
      SameOneMore(Retry.Told(Retry.Oks(events[..n])), events[..n], events[n]);
      assert events[..n] + [events[n]] == events;
    }
  }

  lemma NothingIsTold()
    ensures Retry.Told(Retry.Oks([])) == []
  {
    assert Retry.Oks([]) == [];
  }

  /** One more event means the same behind what means the same; a notice means nothing. */
  lemma SameOneMore(told: seq<TurnEvent>, events: seq<TurnEvent>, e: TurnEvent)
    requires Kernel.TurnItems(told) == Kernel.TurnItems(events) && Kernel.TurnCalls(told) == Kernel.TurnCalls(events)
    ensures var more := told + if e.RuntimeNotice? then [] else [e];
            && Kernel.TurnItems(more) == Kernel.TurnItems(events + [e])
            && Kernel.TurnCalls(more) == Kernel.TurnCalls(events + [e])
  {
    hide Kernel.TurnItems, Kernel.TurnCalls;
    TurnOneMore(events, e);
    if e.RuntimeNotice? {
      assert told + [] == told;
      NoticeIsNothing(events, e);
    } else {
      TurnOneMore(told, e);
    }
  }

  lemma NoticeIsNothing(events: seq<TurnEvent>, e: TurnEvent)
    requires e.RuntimeNotice?
    ensures Kernel.TurnItems(events) + Kernel.EventItems(e) == Kernel.TurnItems(events)
    ensures Kernel.TurnCalls(events) + (if e.TurnToolCall? then [e.call] else []) == Kernel.TurnCalls(events)
  {
  }

  /** What is read is the beginning of what was told, notices aside; a turn that completes is read
      up to its completion, so that nothing it told is missed. */
  lemma ReadsTold(log: seq<Retry.Sent>, events: seq<TurnEvent>, said: seq<TurnEvent>, end: seq<TurnEvent>)
    returns (told: seq<TurnEvent>)
    requires |events| <= |log| && forall i :: 0 <= i < |events| ==> log[i] == Ok(events[i])
    requires AttemptShape(Retry.Told(log), said, end)
    ensures told <= said + end
    ensures Kernel.TurnItems(told) == Kernel.TurnItems(events) && Kernel.TurnCalls(told) == Kernel.TurnCalls(events)
    ensures events != [] && events[|events| - 1].TurnCompleted? ==> told == said + end && end != []
  {
    hide Kernel.TurnItems, Kernel.TurnCalls, Retry.HasCompleted, AttemptShape;
    var n := |events|;
    var front, rest := log[..n], log[n..];
    assert log == front + rest && front == Retry.Oks(events);
    ToldAppend(front, rest);
    NoticesAddNothing(events);
    told := Retry.Told(front);
    ShapeCompletes(Retry.Told(log), said, end);
    ShapeIsSaid(Retry.Told(log), said, end);
    var all := Retry.Told(log);
    assert all == told + Retry.Told(rest);
    if n > 0 && events[n - 1].TurnCompleted? {
      LastIsTold(front);
      assert all[|told| - 1].TurnCompleted?;
      assert |told| == |all|;
      assert told == all;
      CompletedIsSome(all, |told| - 1);
    }
  }

  lemma LastIsTold(log: seq<Retry.Sent>)
    requires log != [] && log[|log| - 1].Ok? && log[|log| - 1].value.TurnCompleted?
    ensures Retry.Told(log) != [] && Retry.Told(log)[|Retry.Told(log)| - 1].TurnCompleted?
  {
  }

  lemma CompletedIsSome(events: seq<TurnEvent>, i: nat)
    requires i < |events| && events[i].TurnCompleted?
    ensures Retry.HasCompleted(events)
  {
  }

  // ---------------------------------------------------------------------------
  // The turn as a segment of the conversation

  lemma TurnItemsAppend(a: seq<TurnEvent>, b: seq<TurnEvent>)
    ensures Kernel.TurnItems(a + b) == Kernel.TurnItems(a) + Kernel.TurnItems(b)
    ensures Kernel.TurnCalls(a + b) == Kernel.TurnCalls(a) + Kernel.TurnCalls(b)
  {
    hide Kernel.TurnItems, Kernel.TurnCalls;
    ItemsAppend(a, b);
    CallsAppend(a, b);
  }

  lemma {:induction false} ItemsAppend(a: seq<TurnEvent>, b: seq<TurnEvent>)
    ensures Kernel.TurnItems(a + b) == Kernel.TurnItems(a) + Kernel.TurnItems(b)
  {
    hide Kernel.EventItems;
    if b == [] {
      assert a + b == a;
    } else {
      var n := |b| - 1;
      assert (a + b)[..|a| + n] == a + b[..n];
      ItemsAppend(a, b[..n]);
      Associative(Kernel.TurnItems(a), Kernel.TurnItems(b[..n]), Kernel.EventItems(b[n]));
    }
  }

  lemma {:induction false} CallsAppend(a: seq<TurnEvent>, b: seq<TurnEvent>)
    ensures Kernel.TurnCalls(a + b) == Kernel.TurnCalls(a) + Kernel.TurnCalls(b)
  {
    if b == [] {
      assert a + b == a;
    } else {
      var n := |b| - 1;
      assert (a + b)[..|a| + n] == a + b[..n];
      CallsAppend(a, b[..n]);
      Associative(Kernel.TurnCalls(a), Kernel.TurnCalls(b[..n]), if b[n].TurnToolCall? then [b[n].call] else []);
    }
  }

  function IdsOf(calls: seq<CallRequest>): seq<string> {
    seq(|calls|, i requires 0 <= i < |calls| => calls[i].callId)
  }

  /** The items of what is said are said, and its calls are the turn's calls. */
  lemma {:induction false} SaidItems(events: seq<TurnEvent>)
    requires SaidEvents(events)
    ensures var items := Kernel.TurnItems(events);
            AllSaid(items) && CallIds(items) == IdsOf(Kernel.TurnCalls(events))
  {
    hide SaidEvent, IsSaid, CallIds, IdsOf, Kernel.TurnItems, Kernel.TurnCalls;
    if events == [] {
      NothingSaidNorCalled();
    } else {
      var n := |events| - 1;
      SaidItems(events[..n]);
      assert SaidEvent(events[n]);
      TurnOneMore(events[..n], events[n]);
      assert events[..n] + [events[n]] == events;
      SaidOneMore(Kernel.TurnItems(events[..n]), Kernel.TurnCalls(events[..n]), events[n]);
    }
  }

  lemma NothingSaidNorCalled()
    ensures Kernel.TurnItems([]) == [] && AllSaid([]) && CallIds([]) == IdsOf(Kernel.TurnCalls([]))
  {
  }

  lemma SaidOneMore(items: seq<TranscriptItem>, calls: seq<CallRequest>, e: TurnEvent)
    requires AllSaid(items) && CallIds(items) == IdsOf(calls) && SaidEvent(e)
    ensures AllSaid(items + Kernel.EventItems(e))
    ensures CallIds(items + Kernel.EventItems(e)) == IdsOf(calls + if e.TurnToolCall? then [e.call] else [])
  {
    hide IsTextMessage, CallIds;
    CallIdsAppend(items, Kernel.EventItems(e));
    if e.TurnToolCall? {
      assert IdsOf(calls + [e.call]) == IdsOf(calls) + [e.call.callId];
    } else {
      assert calls + [] == calls;
      assert CallIds(items) + [] == CallIds(items);
    }
  }

  lemma CallIdsAppend(a: seq<TranscriptItem>, b: seq<TranscriptItem>)
    requires |b| <= 1
    ensures CallIds(a + b)
         == CallIds(a) + if b != [] && b[0].ToolCall? then [b[0].callId] else []
  {
    if b == [] {
      assert a + b == a;
      assert CallIds(a) + [] == CallIds(a);
    } else {
      assert (a + b)[..|a|] == a;
    }
  }

  /** A turn: its attempts, where its token is cancelled if that happens while it reads, and a run
      of its tool calls. */
  datatype ChatTurn = ChatTurn(
    rules: Retry.Setting, free: bool, streams: nat -> ChatAttempt, cancelledAt: Option<nat>,
    exclusive: CallRequest -> bool, steps: seq<Scheduling.Step>)

  function TurnLog(t: ChatTurn): seq<Retry.Sent> {
    Retry.Run(t.rules, Attempts(t.streams), t.free).0.log
  }

  /** What the kernel's polls bring. */
  function TurnPolls(t: ChatTurn): seq<Kernel.StreamPoll> {
    var polls := PollsOf(TurnLog(t));
    if t.cancelledAt.Some? && t.cancelledAt.value <= |polls| then polls[..t.cancelledAt.value] + [Kernel.Cancelled]
    else polls
  }

  function TurnEvents(t: ChatTurn): seq<TurnEvent> {
    Kernel.EventsRead(TurnPolls(t))
  }

  function TurnCallsOf(t: ChatTurn): seq<CallRequest> {
    Kernel.TurnCalls(TurnEvents(t))
  }

  function TurnTools(t: ChatTurn): Scheduling.Schedule {
    Scheduling.StartTasks(TurnCallsOf(t), t.exclusive)
  }

  /** The turn is over: its stream broke off, or completed and the result loop is over. */
  predicate IsOver(t: ChatTurn) {
    Kernel.ReachesCompletion(TurnPolls(t)) ==>
      Scheduling.IsRun(TurnTools(t), t.steps) && Scheduling.IsOver(Scheduling.After(TurnTools(t), t.steps))
  }

  /** The stream completes, and all results come out. */
  predicate Succeeds(t: ChatTurn) {
    && Kernel.ReachesCompletion(TurnPolls(t))
    && Scheduling.IsRun(TurnTools(t), t.steps)
    && Scheduling.After(TurnTools(t), t.steps).released == |TurnCallsOf(t)|
  }

  /** A turn that fails behind one of its calls. */
  predicate LeavesCalls(t: ChatTurn) {
    TurnCallsOf(t) != [] && !Succeeds(t)
  }

  /** What a turn has read: its text, reasoning and calls. */
  function TurnRead(t: ChatTurn): seq<TranscriptItem> {
    Kernel.TurnItems(TurnEvents(t))
  }

  function TurnResults(t: ChatTurn): seq<TranscriptItem>
    requires IsOver(t)
  {
    if Kernel.ReachesCompletion(TurnPolls(t)) then Scheduling.Recorded(TurnCallsOf(t), t.exclusive, t.steps) else []
  }

  /** What a turn adds to the conversation. */
  function TurnAdds(t: ChatTurn): seq<TranscriptItem>
    requires IsOver(t)
  {
    TurnRead(t) + TurnResults(t)
  }

  lemma CompletionAddsNothing(said: seq<TurnEvent>, end: seq<TurnEvent>)
    requires end == [] || (|end| == 1 && end[0].TurnCompleted?)
    ensures Kernel.TurnItems(said + end) == Kernel.TurnItems(said)
    ensures Kernel.TurnCalls(said + end) == Kernel.TurnCalls(said)
  {
    TurnItemsAppend(said, end);
    assert end != [] ==> end[..0] == [];
    assert Kernel.TurnItems(said) + [] == Kernel.TurnItems(said);
    assert Kernel.TurnCalls(said) + [] == Kernel.TurnCalls(said);
  }

  /** What its attempts finish, failed ones included. */
  function TurnSaid(t: ChatTurn): seq<TranscriptItem> {
    ItemsOfAttempts(t.streams, AttemptsMade(t.rules, t.streams, t.free))
  }

  lemma EventsAreLogged(t: ChatTurn)
    ensures var events := TurnEvents(t);
            |events| <= |TurnLog(t)| && forall i :: 0 <= i < |events| ==> TurnLog(t)[i] == Ok(events[i])
  {
    hide Kernel.EventsRead, Retry.Run;
    ReadIsPrefix(TurnPolls(t));
    var log, polls, events := TurnLog(t), TurnPolls(t), TurnEvents(t);
    var n := if |polls| == 0 then 0 else |polls| - 1;
    if t.cancelledAt.Some? && t.cancelledAt.value <= |log| {
      ReadStopsAt(polls, n);
    }
    assert |events| <= |log|;
    forall i | 0 <= i < |events|
      ensures log[i] == Ok(events[i])
    {
      assert polls[i] == Kernel.Event(events[i]);
      assert polls[i] == PollsOf(log)[i];
    }
  }

  lemma {:induction false} ReadStopsAt(polls: seq<Kernel.StreamPoll>, k: nat)
    requires k < |polls| && !polls[k].Event?
    ensures |Kernel.EventsRead(polls)| <= k
  {
    if k > 0 && polls[0].Event? && !polls[0].event.TurnCompleted? {
      ReadStopsAt(polls[1..], k - 1);
    }
  }

  /** The beginning of what is said is said. */
  lemma BeginningIsSaid(told: seq<TurnEvent>, said: seq<TurnEvent>, end: seq<TurnEvent>)
    requires told <= said + end && SaidEvents(said) && (end == [] || (|end| == 1 && end[0].TurnCompleted?))
    ensures var items := Kernel.TurnItems(told);
            && AllSaid(items) && CallIds(items) == IdsOf(Kernel.TurnCalls(told))
            && items <= Kernel.TurnItems(said)
    ensures told == said + end ==> Kernel.TurnItems(told) == Kernel.TurnItems(said)
  {
    hide Kernel.TurnItems, Kernel.TurnCalls, SaidEvents, AllSaid, CallIds, IdsOf;
    CompletionAddsNothing(said, end);
    if |told| <= |said| {
      assert told == (said + end)[..|told|] == said[..|told|];
      FrontIsSaid(told, said);
    } else {
      assert told == said + end;
      SaidItems(said);
    }
  }

  lemma FrontIsSaid(told: seq<TurnEvent>, said: seq<TurnEvent>)
    requires told <= said && SaidEvents(said)
    ensures var items := Kernel.TurnItems(told);
            && AllSaid(items) && CallIds(items) == IdsOf(Kernel.TurnCalls(told))
            && items <= Kernel.TurnItems(said)
  {
    hide Kernel.TurnItems, Kernel.TurnCalls, SaidEvent, AllSaid, CallIds, IdsOf;
    assert SaidEvents(told);
    hide SaidEvents;
    SaidItems(told);
    TurnItemsAppend(told, said[|told|..]);
    assert told + said[|told|..] == said;
  }

  /** A turn reads a beginning of what its attempts finish; all of it if it completes. */
  lemma TurnReads(t: ChatTurn)
    ensures AllSaid(TurnRead(t)) && CallIds(TurnRead(t)) == IdsOf(TurnCallsOf(t))
    ensures TurnRead(t) <= TurnSaid(t)
    ensures Kernel.ReachesCompletion(TurnPolls(t)) ==> TurnRead(t) == TurnSaid(t)
  {
    hide Retry.Run, Kernel.EventsRead, Kernel.TurnItems, Kernel.TurnCalls, CallIds, Retry.Told, SaidEvents, AllSaid,
      AttemptsMade, ItemsOfAttempts, AttemptShape, IdsOf, TurnPolls;
    var said, end := ToldShape(t.rules, t.streams, t.free);
    EventsAreLogged(t);
    var told := ReadsTold(TurnLog(t), TurnEvents(t), said, end);
    ShapeIsSaid(Retry.Told(TurnLog(t)), said, end);
    BeginningIsSaid(told, said, end);
  }

  /** A turn adds what it reads, then the results of its first calls: one per call if it succeeds. */
  lemma TurnIsSegment(t: ChatTurn) returns (s: Segment)
    requires IsOver(t)
    ensures s.Turn? && s.said == TurnRead(t) && WellFormed(s) && SegmentItems(s) == TurnAdds(t)
    ensures Answered(s) <==> !LeavesCalls(t)
    ensures Succeeds(t) ==> s.said == TurnSaid(t)
  {
    hide Kernel.TurnItems, Kernel.TurnCalls, Kernel.ReachesCompletion, CallIds, Scheduling.IsRun, Scheduling.After,
      Scheduling.Recorded, AllSaid, TurnPolls, TurnEvents, TurnSaid, Scheduling.IsOver;
    TurnReads(t);
    var calls := TurnCallsOf(t);
    if Kernel.ReachesCompletion(TurnPolls(t)) {
      Scheduling.OneAnswerPerCall(calls, t.exclusive, t.steps);
    }
    s := Turn(TurnRead(t), TurnResults(t));
  }

  /** The kernel's own contract adds the same: its result loop releases what the tools resolve to. */
  lemma KernelAddsTurn(t: ChatTurn, before: seq<TranscriptItem>)
    requires IsOver(t)
    ensures var events, calls := TurnEvents(t), TurnCallsOf(t);
            if !Kernel.ReachesCompletion(TurnPolls(t)) then before + Kernel.TurnItems(events) == before + TurnAdds(t)
            else
              var s := Scheduling.After(TurnTools(t), t.steps);
              var outcomes := Kernel.Outcomes((i: nat) => Scheduling.OutcomeAt(s, i), |calls|);
              && (Kernel.OkCount(outcomes) == |calls| <==> Succeeds(t))
              && before + Kernel.TurnItems(events) + Kernel.ResultItems(outcomes[..Kernel.OkCount(outcomes)])
                 == before + TurnAdds(t)
  {
    hide Kernel.EventsRead, Kernel.TurnItems, Kernel.TurnCalls, Kernel.ReachesCompletion, Kernel.ResultItems,
      Kernel.OkCount, Scheduling.IsRun, Scheduling.After, Scheduling.AnswersCall, Scheduling.IsOver, TurnPolls;
    var calls := TurnCallsOf(t);
    if Kernel.ReachesCompletion(TurnPolls(t)) {
      Scheduling.OneResultPerCall(calls, t.exclusive, t.steps);
      var s := Scheduling.After(TurnTools(t), t.steps);
      var outcomes := Kernel.Outcomes((i: nat) => Scheduling.OutcomeAt(s, i), |calls|);
      assert outcomes[..s.released] == Kernel.Outcomes((i: nat) => Scheduling.OutcomeAt(s, i), s.released);
      Associative(before, TurnRead(t), TurnResults(t));
    } else {
      assert TurnRead(t) + [] == TurnRead(t);
    }
  }

  // ---------------------------------------------------------------------------
  // Whole conversations

  datatype Stage = UserInputs(inputs: seq<TranscriptItem>) | ModelTurn(turn: ChatTurn)

  predicate StageIsOver(s: Stage) {
    match s
    case UserInputs(inputs) => forall i :: 0 <= i < |inputs| ==> IsUser(inputs[i])
    case ModelTurn(turn) => IsOver(turn)
  }

  function StageAdds(s: Stage): seq<TranscriptItem>
    requires StageIsOver(s)
  {
    match s
    case UserInputs(inputs) => inputs
    case ModelTurn(turn) => TurnAdds(turn)
  }

  predicate AllOver(stages: seq<Stage>) {
    forall i :: 0 <= i < |stages| ==> StageIsOver(stages[i])
  }

  /** The conversation after these stages. */
  function Conversation(base: seq<TranscriptItem>, stages: seq<Stage>): seq<TranscriptItem>
    requires AllOver(stages)
    decreases |stages|
  {
    if stages == [] then base
    else Conversation(base, stages[..|stages| - 1]) + StageAdds(stages[|stages| - 1])
  }

  /** No turn keeps an assistant text between two of its calls. */
  predicate NoTextBetweenCalls(base: seq<TranscriptItem>, stages: seq<Stage>)
    requires AllOver(stages)
    decreases |stages|
  {
    stages != [] ==>
      var n := |stages| - 1;
      && NoTextBetweenCalls(base, stages[..n])
      && (stages[n].ModelTurn? ==> !Splits(Conversation(base, stages[..n]), TurnRead(stages[n].turn)))
  }

  /** No turn fails behind one of its calls. */
  predicate NoneLeavesCalls(stages: seq<Stage>) {
    forall i :: 0 <= i < |stages| && stages[i].ModelTurn? ==> !LeavesCalls(stages[i].turn)
  }

  lemma StageIsSegment(stage: Stage) returns (s: Segment)
    requires StageIsOver(stage)
    ensures WellFormed(s) && SegmentItems(s) == StageAdds(stage)
    ensures s.Turn? <==> stage.ModelTurn?
    ensures stage.ModelTurn? ==> s.said == TurnRead(stage.turn)
    ensures Answered(s) <==> (stage.ModelTurn? ==> !LeavesCalls(stage.turn))
  {
    hide IsOver, TurnAdds, TurnRead, LeavesCalls, Succeeds;
    match stage
    case UserInputs(inputs) => s := Inputs(inputs);
    case ModelTurn(turn) => s := TurnIsSegment(turn);
  }

  lemma SegmentsOneMore(segments: seq<Segment>, last: Segment)
    ensures ItemsOf(segments + [last]) == ItemsOf(segments) + SegmentItems(last)
    ensures AllWellFormed(segments + [last]) <==> AllWellFormed(segments) && WellFormed(last)
    ensures AllAnswered(segments + [last]) <==> AllAnswered(segments) && Answered(last)
    ensures NoneSplits(segments + [last])
       <==> NoneSplits(segments) && (last.Turn? ==> !Splits(ItemsOf(segments), last.said))
  {
    hide WellFormed, SegmentItems, Splits, Answered;
    var all := segments + [last];
    assert all[..|segments|] == segments && all[|segments|] == last;
    assert forall i :: 0 <= i < |segments| ==> all[i] == segments[i];
  }

  lemma StagesOneMore(base: seq<TranscriptItem>, stages: seq<Stage>)
    requires stages != [] && AllOver(stages)
    ensures var n := |stages| - 1;
            && AllOver(stages[..n]) && StageIsOver(stages[n])
            && Conversation(base, stages) == Conversation(base, stages[..n]) + StageAdds(stages[n])
            && (NoTextBetweenCalls(base, stages)
                <==> NoTextBetweenCalls(base, stages[..n])
                     && (stages[n].ModelTurn?
                         ==> !Splits(Conversation(base, stages[..n]), TurnRead(stages[n].turn))))
  {
    hide StageIsOver, StageAdds, Splits, TurnRead;
  }

  lemma LeavesOneMore(stages: seq<Stage>)
    requires stages != []
    ensures var n := |stages| - 1;
            NoneLeavesCalls(stages)
            <==> NoneLeavesCalls(stages[..n]) && (stages[n].ModelTurn? ==> !LeavesCalls(stages[n].turn))
  {
    hide LeavesCalls;
  }

  /** A conversation behind a transcript of segments is one. */
  lemma {:induction false} ConversationIsSegments(base: seq<Segment>, stages: seq<Stage>)
    returns (segments: seq<Segment>)
    requires AllWellFormed(base) && AllOver(stages)
    ensures AllWellFormed(segments) && ItemsOf(segments) == Conversation(ItemsOf(base), stages)
    ensures NoneSplits(segments) <==> NoneSplits(base) && NoTextBetweenCalls(ItemsOf(base), stages)
    ensures AllAnswered(segments) <==> AllAnswered(base) && NoneLeavesCalls(stages)
    decreases |stages|
  {
    segments := base;
    if stages != [] {
      hide AllWellFormed, WellFormed, SegmentItems, StageAdds, StageIsOver, Splits, TurnRead, AllOver, Conversation,
        NoTextBetweenCalls, NoneSplits, ItemsOf, AllAnswered, Answered, NoneLeavesCalls, LeavesCalls;
      var n := |stages| - 1;
      StagesOneMore(ItemsOf(base), stages);
      LeavesOneMore(stages);
      var before := ConversationIsSegments(base, stages[..n]);
      var last := StageIsSegment(stages[n]);
      SegmentsOneMore(before, last);
      segments := before + [last];
    }
  }

  /** Whatever is streamed, retried, scheduled, cancelled or failing: the request built behind a
      transcript of inputs and turns, from user inputs and turns, has every message with calls
      followed immediately by exactly its tool messages, if and only if no turn keeps an assistant
      text between two of its calls and no turn fails behind one of its calls. */
  lemma NextRequestIsAdjacentIff(instructions: string, base: seq<Segment>, stages: seq<Stage>,
                                 anchors: map<nat, string>, handling: DeveloperRoleHandling)
    requires AllWellFormed(base) && AllOver(stages)
    ensures var items := Conversation(ItemsOf(base), stages);
            var messages := AddItems(Builder([SystemMessage(instructions)], None), items, |items|, anchors,
                                     handling).messages;
            && messages != [] && messages[0].role == "system"
            && (Adjacent(messages)
                <==> && NoneSplits(base) && NoTextBetweenCalls(ItemsOf(base), stages)
                     && AllAnswered(base) && NoneLeavesCalls(stages))
  {
    hide AddItems, AllWellFormed, ItemsOf, Adjacent, Conversation, AllOver, NoTextBetweenCalls, NoneSplits,
      AllAnswered, NoneLeavesCalls;
    var segments := ConversationIsSegments(base, stages);
    RequestIsAdjacentIff(instructions, segments, anchors, handling);
  }

  // ---------------------------------------------------------------------------
  // The turns that never do

  /** All attempts aggregated: the default. */
  ghost predicate IsAggregated(streams: nat -> ChatAttempt) {
    forall k :: streams(k).NoStream? || streams(k).AggregatedStream?
  }

  predicate OneChoiceAttempt(c: ChatAttempt) {
    match c
    case NoStream(_) => true
    case AggregatedStream(_) => false
    case RawStream(polls) => forall i :: 0 <= i < |polls| ==> HasOneChoice(polls[i])
    case WholeResponse(body) => body.choices.Some? ==> |body.choices.value| <= 1
  }

  /** All attempts raw streams or whole responses with one choice. */
  ghost predicate IsOneChoice(streams: nat -> ChatAttempt) {
    forall k :: OneChoiceAttempt(streams(k))
  }

  lemma FailedHasNoEnd(c: ChatAttempt)
    requires !Retry.HasCompleted(Retry.AttemptEvents(AttemptOf(c)))
    ensures LogOf(c).Ok? ==> !HasEnd(LogOf(c).value)
  {
    hide AttemptOf, LogOf, AttemptShape, Kernel.TurnItems, AttemptItems;
    var said, end := AttemptEventsShape(c);
    ShapeCompletes(Retry.AttemptEvents(AttemptOf(c)), said, end);
  }

  lemma AggregatedItems(c: ChatAttempt)
    requires c.NoStream? || c.AggregatedStream?
    ensures MessageLast(AttemptItems(c))
    ensures !Retry.HasCompleted(Retry.AttemptEvents(AttemptOf(c))) ==> NoMessages(AttemptItems(c))
  {
    hide Retry.HasCompleted, Retry.AttemptEvents, AttemptOf, Aggregated, DoneItems;
    if c.AggregatedStream? {
      AggregatedEnds(c.polls);
      if !Retry.HasCompleted(Retry.AttemptEvents(AttemptOf(c))) {
        FailedHasNoEnd(c);
      }
    }
  }

  lemma OneChoiceItems(c: ChatAttempt)
    requires OneChoiceAttempt(c)
    ensures InOrder(AttemptItems(c))
    ensures !Retry.HasCompleted(Retry.AttemptEvents(AttemptOf(c))) ==> AttemptItems(c) == []
  {
    hide Retry.HasCompleted, Retry.AttemptEvents, AttemptOf, DoneItems, ProcessAll, InOrder, HasOneChoice;
    NothingIsInOrder();
    if !Retry.HasCompleted(Retry.AttemptEvents(AttemptOf(c))) {
      FailedHasNoEnd(c);
    }
    match c
    case NoStream(_) =>
    case RawStream(polls) => OneChoiceInOrder(polls);
    case WholeResponse(body) =>
      if WholeItems(body).Ok? {
        WholeEnds(body);
        WholeChoiceInOrder(body.choices.value);
      }
  }

  lemma {:induction false} FailedAggregatedItems(streams: nat -> ChatAttempt, n: nat)
    requires IsAggregated(streams)
    requires forall k :: 0 <= k < n ==> !Retry.HasCompleted(Retry.AttemptEvents(Attempts(streams)(k)))
    ensures NoMessages(ItemsOfAttempts(streams, n))
  {
    hide Retry.HasCompleted, Retry.AttemptEvents, AttemptOf, AttemptItems;
    if n > 0 {
      FailedAggregatedItems(streams, n - 1);
      assert !Retry.HasCompleted(Retry.AttemptEvents(Attempts(streams)(n - 1)));
      AggregatedItems(streams(n - 1));
    }
  }

  lemma {:induction false} FailedOneChoiceItems(streams: nat -> ChatAttempt, n: nat)
    requires IsOneChoice(streams)
    requires forall k :: 0 <= k < n ==> !Retry.HasCompleted(Retry.AttemptEvents(Attempts(streams)(k)))
    ensures ItemsOfAttempts(streams, n) == []
  {
    hide Retry.HasCompleted, Retry.AttemptEvents, AttemptOf, AttemptItems, OneChoiceAttempt;
    if n > 0 {
      FailedOneChoiceItems(streams, n - 1);
      assert !Retry.HasCompleted(Retry.AttemptEvents(Attempts(streams)(n - 1)));
      assert OneChoiceAttempt(streams(n - 1));
      OneChoiceItems(streams(n - 1));
    }
  }

  lemma LastIsApart(items: seq<TranscriptItem>)
    requires MessageLast(items) || InOrder(items)
    ensures Apart(items)
  {
    assert forall i :: 0 <= i < |items| - 1 ==> items[i] == items[..|items| - 1][i];
  }

  /** An aggregated turn says its message last; a raw or whole turn of one choice says it before
      its calls.  Neither ever keeps a text between two calls, wherever it breaks off. */
  lemma TurnNeverSplits(t: ChatTurn, before: seq<TranscriptItem>)
    requires IsAggregated(t.streams) || IsOneChoice(t.streams)
    ensures !Splits(before, TurnRead(t))
  {
    hide Retry.Run, Retry.HasCompleted, Retry.AttemptEvents, AttemptOf, AttemptItems, NoMessages, InOrder,
      OneChoiceAttempt, Splits, Kernel.TurnItems, Retry.Told, AttemptShape, Apart, TurnRead;
    var said, end := ToldShape(t.rules, t.streams, t.free);
    var made := AttemptsMade(t.rules, t.streams, t.free);
    if IsAggregated(t.streams) {
      FailedAggregatedItems(t.streams, made - 1);
      AggregatedItems(t.streams(made - 1));
      MessageStaysLast(ItemsOfAttempts(t.streams, made - 1), AttemptItems(t.streams(made - 1)));
    } else {
      FailedOneChoiceItems(t.streams, made - 1);
      assert OneChoiceAttempt(t.streams(made - 1));
      OneChoiceItems(t.streams(made - 1));
      assert TurnSaid(t) == [] + AttemptItems(t.streams(made - 1)) == AttemptItems(t.streams(made - 1));
    }
    LastIsApart(TurnSaid(t));
    TurnReads(t);
    BeginningIsApart(TurnRead(t), TurnSaid(t));
    ApartNeverSplits(before, TurnRead(t));
  }

  lemma BeginningIsApart(items: seq<TranscriptItem>, all: seq<TranscriptItem>)
    requires items <= all && Apart(all)
    ensures Apart(items)
  {
  }

  ghost predicate OfKnownKind(stages: seq<Stage>) {
    forall i :: 0 <= i < |stages| && stages[i].ModelTurn? ==>
      IsAggregated(stages[i].turn.streams) || IsOneChoice(stages[i].turn.streams)
  }

  lemma {:induction false} NoTextBetween(base: seq<TranscriptItem>, stages: seq<Stage>)
    requires AllOver(stages) && OfKnownKind(stages)
    ensures NoTextBetweenCalls(base, stages)
    decreases |stages|
  {
    hide Splits, TurnRead, IsAggregated, IsOneChoice, StageIsOver, StageAdds, Conversation;
    if stages != [] {
      var n := |stages| - 1;
      NoTextBetween(base, stages[..n]);
      if stages[n].ModelTurn? {
        TurnNeverSplits(stages[n].turn, Conversation(base, stages[..n]));
      }
    }
  }

  /** So if every turn is aggregated, or has one choice, the next request is adjacent if and only if
      no turn fails behind one of its calls. */
  lemma NextRequestIsAdjacent(instructions: string, stages: seq<Stage>, anchors: map<nat, string>,
                              handling: DeveloperRoleHandling)
    requires AllOver(stages) && OfKnownKind(stages)
    ensures var items := Conversation([], stages);
            Adjacent(AddItems(Builder([SystemMessage(instructions)], None), items, |items|, anchors, handling).messages)
            <==> NoneLeavesCalls(stages)
  {
    hide AddItems, Adjacent, Conversation, AllOver, NoTextBetweenCalls, OfKnownKind, NoneLeavesCalls;
    NoTextBetween([], stages);
    NextRequestIsAdjacentIff(instructions, [], stages, anchors, handling);
  }
}
