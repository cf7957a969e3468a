/** The calls that a chat stream finishes, against what is read directly off its polls: each
    `tool_calls` finish reports the calls that the fragments since the last finish make up, and a
    `stop` drops its fragments (src/llm/src/api/sse/chat.rs:278-413). */
module ChatCalls {
  import opened Basics
  import opened Transcript
  import opened ToolCallTable
  import opened ChatWire
  import opened ChatAssembler
  import opened ChatAgreement
  import opened ChatProtocol
  import opened ChatFailures
  import opened ChatEnding
  import opened ChatContent

  // ---------------------------------------------------------------------------
  // Read off the polls

  /** The fragments since the last finish, the calls finished so far, and where the numbering of
      fragments without an index goes on. */
  datatype Gathered = Gathered(next: nat, batch: seq<ToolDelta>, finished: seq<TranscriptItem>)

  const NOTHING_GATHERED: Gathered := Gathered(0, [], [])

  function FragmentsIn(choice: Choice): seq<ToolDelta> {
    if choice.delta.Some? then OrEmpty(choice.delta.value.toolCalls) else []
  }

  /** The calls that these fragments make up, by the slots they go to, in the order of first use. */
  function MadeOf(next: nat, batch: seq<ToolDelta>): seq<TranscriptItem> {
    var routes := Routes(EmptyTable(next), batch);
    CallsIn(FirstSeen(routes), batch, routes)
  }

  function NextBehind(next: nat, batch: seq<ToolDelta>): nat {
    AddAll(EmptyTable(next), batch).next
  }

  function GatherChoice(g: Gathered, choice: Choice): Gathered {
    var batch := g.batch + FragmentsIn(choice);
    if choice.finishReason == Some("stop") then Gathered(NextBehind(g.next, batch), [], g.finished)
    else if choice.finishReason == Some("tool_calls") then
      Gathered(NextBehind(g.next, batch), [], g.finished + MadeOf(g.next, batch))
    else g.(batch := batch)
  }

  function GatherChoices(g: Gathered, choices: seq<Choice>): Gathered {
    if choices == [] then g
    else
      var n := |choices| - 1;
      var before := GatherChoices(g, choices[..n]);
      if AnyFails(choices[..n]) || IsRefused(choices[n]) then before else GatherChoice(before, choices[n])
  }

  function GatherPolls(polls: seq<Poll>): Gathered {
    if polls == [] then NOTHING_GATHERED
    else
      var n := |polls| - 1;
      var before := GatherPolls(polls[..n]);
      if OnlyContentUpTo(polls, n) then GatherChoices(before, ChoicesOf(polls[n])) else before
  }

  // ---------------------------------------------------------------------------
  // Read off the log

  function CallDone(o: Output): seq<TranscriptItem> {
    match o
    case Ok(OutputItemDone(item)) => if item.ToolCall? then [item] else []
    case _ => []
  }

  function CallsDone(log: seq<Output>): seq<TranscriptItem> {
    if log == [] then [] else CallsDone(log[..|log| - 1]) + CallDone(log[|log| - 1])
  }

  lemma {:induction false} CallsDoneAppend(a: seq<Output>, b: seq<Output>)
    ensures CallsDone(a + b) == CallsDone(a) + CallsDone(b)
  {
    hide CallDone;
    if b == [] {
      assert a + b == a;
    } else {
      var n := |b| - 1;
      assert (a + b)[..|a| + n] == a + b[..n];
      CallsDoneAppend(a, b[..n]);
      Associative(CallsDone(a), CallsDone(b[..n]), CallDone(b[n]));
    }
  }

  predicate NoCallsDone(log: seq<Output>) {
    forall i :: 0 <= i < |log| ==> CallDone(log[i]) == []
  }

  lemma {:induction false} NoneDone(log: seq<Output>)
    requires NoCallsDone(log)
    ensures CallsDone(log) == []
  {
    hide CallDone;
    if log != [] {
      NoneDone(log[..|log| - 1]);
    }
  }

  lemma AddsNoCall(log: seq<Output>, more: seq<Output>)
    requires NoCallsDone(more)
    ensures CallsDone(log + more) == CallsDone(log)
  {
    NoneDone(more);
    CallsDoneAppend(log, more);
    assert CallsDone(log) + [] == CallsDone(log);
  }

  lemma {:induction false} AllCallsDone(items: seq<TranscriptItem>)
    requires forall i :: 0 <= i < |items| ==> items[i].ToolCall?
    ensures CallsDone(DoneEvents(items)) == items
  {
    if items != [] {
      var n := |items| - 1;
      AllCallsDone(items[..n]);
      assert DoneEvents(items)[..n] == DoneEvents(items[..n]);
    }
  }

  // ---------------------------------------------------------------------------
  // They agree

  predicate Holds(a: Assembler, g: Gathered) {
    a.calls == AddAll(EmptyTable(g.next), g.batch) && CallsDone(a.sent) == g.finished
  }

  lemma ThoughtKeepsCalls(a: Assembler, text: Option<string>)
    ensures var b := AppendReasoning(a, text);
            b.calls == a.calls && CallsDone(b.sent) == CallsDone(a.sent)
  {
    if text.Some? {
      var o := OpenReasoning(a);
      var opens := if a.reasoning.Some? then [] else [Ok(OutputItemAdded(ReasoningItem([])))];
      assert o.sent == a.sent + opens;
      AddsNoCall(a.sent, opens);
      AddsNoCall(o.sent, [Ok(ReasoningContentDelta(text.value, |o.reasoning.value|))]);
    }
  }

  lemma TextKeepsCalls(a: Assembler, text: string)
    ensures var b := AppendAssistant(a, text);
            b.calls == a.calls && CallsDone(b.sent) == CallsDone(a.sent)
  {
    hide PlanText.Run, PlanParser.Coalesce, ProposedPlanText.DeltaTexts, CallsDone;
    var o := OpenAssistant(a);
    var opens := if a.assistant.Some? then [] else [Ok(OutputItemAdded(AssistantMessage([])))];
    var plans := PlanDeltasOf(PlanText.Run(ParserOf(o), text).1);
    assert o.sent == a.sent + opens;
    AddsNoCall(a.sent, opens);
    AddsNoCall(o.sent, plans);
    AddsNoCall(o.sent + plans, [Ok(OutputTextDelta(text))]);
  }

  lemma {:induction false} TextsKeepCalls(a: Assembler, texts: seq<string>)
    ensures var b := AppendAssistantAll(a, texts);
            b.calls == a.calls && CallsDone(b.sent) == CallsDone(a.sent)
  {
    hide AppendAssistant, CallsDone;
    if texts != [] {
      var n := |texts| - 1;
      TextsKeepCalls(a, texts[..n]);
      TextKeepsCalls(AppendAssistantAll(a, texts[..n]), texts[n]);
    }
  }

  lemma ContentAddsFragments(a: Assembler, choice: Choice)
    ensures var b := ApplyContent(a, choice);
            b.calls == AddAll(a.calls, FragmentsIn(choice)) && CallsDone(b.sent) == CallsDone(a.sent)
  {
    hide AppendReasoning, AppendAssistantAll, Add, CallsDone;
    var d := a;
    if choice.delta.Some? {
      var delta := choice.delta.value;
      ThoughtKeepsCalls(a, ReasoningTextOf(delta.reasoning));
      TextsKeepCalls(AppendReasoning(a, ReasoningTextOf(delta.reasoning)), StreamedTexts(delta.content));
      d := ApplyDelta(a, delta);
    }
    if choice.message.Some? {
      ThoughtKeepsCalls(d, ReasoningTextOf(choice.message.value.reasoning));
    }
  }

  lemma ClosingKeepsCalls(a: Assembler)
    ensures var c := CloseAssistant(CloseReasoning(a));
            c.calls == a.calls && CallsDone(c.sent) == CallsDone(a.sent)
  {
    hide PlanText.FinishAtoms, PlanParser.Coalesce, ProposedPlanText.DeltaTexts, ProposedPlanText.ProposedPlan,
      CallsDone;
    var r := CloseReasoning(a);
    if a.reasoning.Some? {
      AddsNoCall(a.sent, [Ok(OutputItemDone(ReasoningItem(a.reasoning.value)))]);
    }
    if a.assistant.Some? {
      var texts := a.assistant.value;
      var rest := if r.parser.Some? then PlanDeltasOf(PlanText.FinishAtoms(r.parser.value)) else [];
      AddsNoCall(r.sent, rest);
      AddsNoCall(r.sent + rest, PlanDoneEvent(texts));
      AddsNoCall(r.sent + rest + PlanDoneEvent(texts), [Ok(OutputItemDone(AssistantMessage(texts)))]);
    }
  }

  lemma FlushKeepsCalls(a: Assembler)
    ensures CallsDone(FlushAndComplete(a).sent) == CallsDone(a.sent)
  {
    hide CloseAssistant, CloseReasoning, CallsDone;
    ClosingKeepsCalls(a);
    ClosingKeepsTheRest(a);
    AddsNoCall(CloseAssistant(CloseReasoning(a)).sent, [Ok(Completed([], a.usage))]);
  }

  /** A choice that is not refused: its fragments, and then its finish reason. */
  lemma ChoiceGathers(a: Assembler, g: Gathered, choice: Choice)
    requires Holds(a, g)
    ensures Holds(ApplyFinish(ApplyContent(a, choice), choice.finishReason).0, GatherChoice(g, choice))
  {
    hide ApplyContent, CloseAssistant, CloseReasoning, Add, CallsDone, CallItems, CallsIn, FirstSeen, Routes;
    ContentAddsFragments(a, choice);
    AddAllAppend(EmptyTable(g.next), g.batch, FragmentsIn(choice));
    var b := ApplyContent(a, choice);
    var batch := g.batch + FragmentsIn(choice);
    ClosingKeepsCalls(b);
    AddsNoCall(b.sent, [Err(ContextWindowExceeded)]);
    CallsAreRead(g.next, batch);
    var c := CloseAssistant(CloseReasoning(b));
    var items := CallItems(b.calls.slots, b.calls.order);
    CallItemsAreCalls(b.calls.slots, b.calls.order);
    AllCallsDone(items);
    CallsDoneAppend(c.sent, DoneEvents(items));
  }

  lemma {:induction false} ChoicesGather(a: Assembler, g: Gathered, choices: seq<Choice>)
    requires !a.closed && Holds(a, g)
    ensures Holds(ApplyChoices(a, choices).0, GatherChoices(g, choices))
  {
    hide ApplyContent, ApplyFinish, RefusalError, IsRefused, AnyFails, GatherChoice, CallsDone, AddAll;
    if choices != [] {
      var n := |choices| - 1;
      var front, last := choices[..n], choices[n];
      ChoicesGather(a, g, front);
      ChoicesEnd(a, front);
      var b := ApplyChoices(a, front).0;
      if !b.closed {
        RefusedIff(last);
        if RefusalError(last).Some? {
          AddsNoCall(b.sent, [Err(RefusalError(last).value)]);
        } else {
          ChoiceGathers(b, GatherChoices(g, front), last);
        }
      }
    }
  }

  /** One poll of a stream that is being read. */
  lemma PollGathers(a: Assembler, g: Gathered, poll: Poll)
    requires !a.closed && !a.pending && Holds(a, g)
    ensures CallsDone(ApplyPoll(a, poll).sent) == GatherChoices(g, ChoicesOf(poll)).finished
    ensures OnlyContent(poll) ==> Holds(ApplyPoll(a, poll), GatherChoices(g, ChoicesOf(poll)))
  {
    hide FlushAndComplete, ApplyChoices, CallsDone, AddAll, AnyFails, AnyFinish;
    FlushKeepsCalls(a);
    match poll
    case TransportError(message) => AddsNoCall(a.sent, [Err(StreamError(message))]);
    case TimedOut => AddsNoCall(a.sent, [Err(StreamError(IDLE_TIMEOUT))]);
    case Data(ChunkData(chunk)) =>
      var u := if chunk.usage.Some? then a.(usage := chunk.usage) else a;
      assert Holds(u, g);
      if chunk.choices.Some? {
        ChoicesGather(u, g, chunk.choices.value);
        ChoicesEnd(u, chunk.choices.value);
        FlushKeepsCalls(ApplyChoices(u, chunk.choices.value).0);
      }
    case _ =>
  }

  lemma WaitKeepsCalls(a: Assembler, poll: Poll)
    requires !a.closed && a.pending
    ensures CallsDone(ApplyPoll(a, poll).sent) == CallsDone(a.sent)
  {
    hide FlushAndComplete, CallsDone;
    FlushKeepsCalls(a);
    if poll.Data? && poll.data.ChunkData? {
      FlushKeepsCalls(a.(usage := poll.data.chunk.usage));
    }
  }

  lemma {:induction false} PollsGather(polls: seq<Poll>)
    ensures CallsDone(ApplyPolls(START, polls).sent) == GatherPolls(polls).finished
    ensures OnlyContentUpTo(polls, |polls|) ==> Holds(ApplyPolls(START, polls), GatherPolls(polls))
  {
    hide ApplyPoll, OnlyContent, CallsDone, AddAll, GatherChoices;
    if polls == [] {
      NothingHeld();
    } else {
      var n := |polls| - 1;
      PollsGather(polls[..n]);
      ReadingIff(polls[..n]);
      assert OnlyContentUpTo(polls, n) <==> OnlyContentUpTo(polls[..n], n);
      var b := ApplyPolls(START, polls[..n]);
      if !b.closed {
        if b.pending {
          WaitKeepsCalls(b, polls[n]);
        } else {
          PollGathers(b, GatherPolls(polls[..n]), polls[n]);
        }
      }
    }
  }

  lemma NothingHeld()
    ensures Holds(START, NOTHING_GATHERED)
  {
  }

  /** On every run: the calls finished are those read off the polls, in order. */
  lemma CallsAreFinished(polls: seq<Poll>)
    ensures CallsDone(ProcessAll(polls).sent) == GatherPolls(polls).finished
  {
    hide ApplyPolls, FlushAndComplete, CallsDone, GatherPolls;
    PollsGather(polls);
    FlushKeepsCalls(ApplyPolls(START, polls));
  }
}
