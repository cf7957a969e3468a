/** Chat streams whose chunks hold at most one choice each: such a stream finishes its reasoning,
    then its message, then its calls, and one that fails has finished nothing
    (src/llm/src/api/sse/chat.rs:131-176, 213-227, 345-434). */
module OneChoice {
  import opened Basics
  import opened Transcript
  import opened ToolCallTable
  import opened ChatWire
  import opened ChatAssembler
  import opened ChatAgreement
  import opened ChatProtocol
  import opened CompletedChat

  /** No message comes behind a call. */
  predicate InOrder(items: seq<TranscriptItem>) {
    forall i, j :: 0 <= i < j < |items| && items[i].ToolCall? ==> !items[j].Message?
  }

  predicate HasOneChoice(poll: Poll) {
    poll.Data? && poll.data.ChunkData? && poll.data.chunk.choices.Some? ==> |poll.data.chunk.choices.value| <= 1
  }

  /** Nothing is finished before the finish reason; behind it nothing is open; an error comes
      before anything is finished. */
  predicate FinishesOnce(a: Assembler) {
    && InOrder(DoneItems(a.sent))
    && (!a.closed && !a.pending ==> DoneItems(a.sent) == [])
    && (!a.closed && a.pending ==> a.reasoning.None? && a.assistant.None?)
    && (a.closed ==> a.sent != [] && (a.sent[|a.sent| - 1].Err? ==> DoneItems(a.sent) == []))
  }

  // ---------------------------------------------------------------------------
  // Content finishes nothing

  lemma ReasoningFinishesNothing(a: Assembler, text: Option<string>)
    ensures var b := AppendReasoning(a, text);
            DoneItems(b.sent) == DoneItems(a.sent) && b.closed == a.closed && b.pending == a.pending
  {
    if text.Some? {
      var o := OpenReasoning(a);
      assert DoneItems(a.sent) + [] == DoneItems(a.sent);
      if a.reasoning.None? {
        DoneItemsOne(a.sent, Ok(OutputItemAdded(ReasoningItem([]))));
      }
      DoneItemsOne(o.sent, Ok(ReasoningContentDelta(text.value, |o.reasoning.value|)));
    }
  }

  lemma TextFinishesNothing(a: Assembler, text: string)
    ensures var b := AppendAssistant(a, text);
            DoneItems(b.sent) == DoneItems(a.sent) && b.closed == a.closed && b.pending == a.pending
  {
    hide PlanText.Run, PlanDeltasOf;
    var o := OpenAssistant(a);
    assert DoneItems(a.sent) + [] == DoneItems(a.sent);
    if a.assistant.None? {
      DoneItemsOne(a.sent, Ok(OutputItemAdded(AssistantMessage([]))));
    }
    var atoms := PlanText.Run(ParserOf(o), text).1;
    PlanDeltasAreNotDone(atoms);
    DoneItemsAppend(o.sent, PlanDeltasOf(atoms));
    DoneItemsOne(o.sent + PlanDeltasOf(atoms), Ok(OutputTextDelta(text)));
  }

  lemma {:induction false} TextsFinishNothing(a: Assembler, texts: seq<string>)
    ensures var b := AppendAssistantAll(a, texts);
            DoneItems(b.sent) == DoneItems(a.sent) && b.closed == a.closed && b.pending == a.pending
  {
    hide AppendAssistant, DoneItems;
    if texts != [] {
      var n := |texts| - 1;
      TextsFinishNothing(a, texts[..n]);
      TextFinishesNothing(AppendAssistantAll(a, texts[..n]), texts[n]);
    }
  }

  lemma ContentFinishesNothing(a: Assembler, choice: Choice)
    ensures var b := ApplyContent(a, choice);
            DoneItems(b.sent) == DoneItems(a.sent) && b.closed == a.closed && b.pending == a.pending
  {
    hide AppendReasoning, AppendAssistantAll, AddAll, DoneItems;
    var d := a;
    if choice.delta.Some? {
      var delta := choice.delta.value;
      ReasoningFinishesNothing(a, ReasoningTextOf(delta.reasoning));
      TextsFinishNothing(AppendReasoning(a, ReasoningTextOf(delta.reasoning)), StreamedTexts(delta.content));
      d := ApplyDelta(a, delta);
    }
    if choice.message.Some? {
      ReasoningFinishesNothing(d, ReasoningTextOf(choice.message.value.reasoning));
    }
  }

  // ---------------------------------------------------------------------------
  // Closing finishes reasoning, then the message

  function ItemOf(texts: Option<seq<string>>, item: seq<string> -> TranscriptItem): seq<TranscriptItem> {
    if texts.Some? then [item(texts.value)] else []
  }

  function OpenItems(a: Assembler): seq<TranscriptItem> {
    ItemOf(a.reasoning, ReasoningItem) + ItemOf(a.assistant, AssistantMessage)
  }

  lemma ClosingFinishes(a: Assembler)
    requires DoneItems(a.sent) == []
    ensures var c := CloseAssistant(CloseReasoning(a));
            && c.reasoning.None? && c.assistant.None? && c.closed == a.closed && c.pending == a.pending
            && DoneItems(c.sent) == OpenItems(a)
  {
    hide PlanDeltasOf, PlanText.FinishAtoms, PlanDoneEvent, DoneItems;
    var r := CloseReasoning(a);
    if a.reasoning.Some? {
      DoneItemsOne(a.sent, Ok(OutputItemDone(ReasoningItem(a.reasoning.value))));
    }
    var done := DoneItems(r.sent);
    assert done + [] == done;
    if a.assistant.Some? {
      var texts := a.assistant.value;
      var rest := if r.parser.Some? then PlanDeltasOf(PlanText.FinishAtoms(r.parser.value)) else [];
      if r.parser.Some? { PlanDeltasAreNotDone(PlanText.FinishAtoms(r.parser.value)); } else { NothingDone([]); }
      PlanDoneIsNotDone(texts);
      DoneItemsAppend(r.sent, rest);
      DoneItemsAppend(r.sent + rest, PlanDoneEvent(texts));
      DoneItemsOne(r.sent + rest + PlanDoneEvent(texts), Ok(OutputItemDone(AssistantMessage(texts))));
    }
  }

  lemma OpenItemsInOrder(a: Assembler, calls: seq<TranscriptItem>)
    requires forall i :: 0 <= i < |calls| ==> calls[i].ToolCall?
    ensures InOrder(OpenItems(a) + calls) && InOrder(OpenItems(a))
  {
    var items := OpenItems(a);
    assert forall i :: 0 <= i < |items| ==> !items[i].ToolCall?;
  }

  lemma FlushFinishes(a: Assembler)
    requires FinishesOnce(a) && !a.closed
    ensures FinishesOnce(FlushAndComplete(a))
  {
    hide DoneItems, CloseAssistant, CloseReasoning, InOrder;
    var c := CloseAssistant(CloseReasoning(a));
    if a.pending {
      CompleteAddsNothing(a, DoneItems(a.sent));
      NothingOpen(a);
    } else {
      ClosingFinishes(a);
      OpenItemsInOrder(a, []);
      DoneItemsOne(c.sent, Ok(Completed([], a.usage)));
      assert DoneItems(c.sent) + [] == DoneItems(c.sent);
    }
  }

  lemma NothingOpen(a: Assembler)
    requires a.reasoning.None? && a.assistant.None?
    ensures FlushAndComplete(a) == Send(a, Completed([], a.usage)).(closed := true)
  {
  }

  lemma FailFinishes(a: Assembler, error: ApiError)
    requires DoneItems(a.sent) == []
    ensures FinishesOnce(Fail(a, error))
  {
    DoneItemsOne(a.sent, Err(error));
  }

  lemma FinishReasonFinishes(a: Assembler, reason: Option<string>)
    requires DoneItems(a.sent) == [] && !a.closed && !a.pending
    ensures var (b, terminal) := ApplyFinish(a, reason);
            && (b.closed ==> FinishesOnce(b))
            && (terminal ==> !b.closed && FinishesOnce(b.(pending := true)))
            && (!terminal && !b.closed ==> b == a)
  {
    hide DoneItems, CloseAssistant, CloseReasoning, CallItems, DoneEvents, InOrder;
    ClosingFinishes(a);
    FailFinishes(a, ContextWindowExceeded);
    var c := CloseAssistant(CloseReasoning(a));
    var calls := CallItems(c.calls.slots, c.calls.order);
    CallItemsAreCalls(c.calls.slots, c.calls.order);
    OpenItemsInOrder(a, calls);
    DoneItemsAppend(c.sent, DoneEvents(calls));
    AllDone(calls);
  }

  lemma UsageFinishes(a: Assembler, usage: Option<TokenUsage>)
    requires FinishesOnce(a)
    ensures FinishesOnce(a.(usage := usage))
  {
  }

  lemma ChoicesFinish(a: Assembler, choices: seq<Choice>)
    requires DoneItems(a.sent) == [] && !a.closed && !a.pending && |choices| <= 1
    ensures var (b, terminal) := ApplyChoices(a, choices);
            && (b.closed ==> FinishesOnce(b))
            && (!b.closed && terminal ==> FinishesOnce(b.(pending := true)))
            && (!b.closed && !terminal ==> DoneItems(b.sent) == [] && !b.pending)
  {
    hide DoneItems, ApplyContent, ApplyFinish, RefusalError, FinishesOnce;
    if choices != [] {
      assert choices[..0] == [];
      var refusal := RefusalError(choices[0]);
      if refusal.Some? {
        FailFinishes(a, refusal.value);
      } else {
        ContentFinishesNothing(a, choices[0]);
        FinishReasonFinishes(ApplyContent(a, choices[0]), choices[0].finishReason);
      }
    }
  }

  lemma ChunkFinishes(a: Assembler, chunk: Chunk)
    requires FinishesOnce(a) && !a.closed && (chunk.choices.Some? ==> |chunk.choices.value| <= 1)
    ensures FinishesOnce(ApplyChunk(a, chunk))
  {
    hide DoneItems, FlushAndComplete, ApplyChoices;
    UsageFinishes(a, chunk.usage);
    var u := if chunk.usage.Some? then a.(usage := chunk.usage) else a;
    FlushFinishes(u);
    if !u.pending && chunk.choices.Some? {
      ChoicesFinish(u, chunk.choices.value);
      var (c, terminal) := ApplyChoices(u, chunk.choices.value);
      if !c.closed {
        if terminal {
          FlushOpen(c);
        } else {
          NothingIsInOrder();
        }
      }
    }
  }

  lemma NothingIsInOrder()
    ensures InOrder([])
  {
  }

  /** Completing behind a finish reason is the same before and after waiting for the usage. */
  lemma FlushOpen(c: Assembler)
    requires !c.closed && FinishesOnce(c.(pending := true))
    ensures FinishesOnce(FlushAndComplete(c))
  {
    hide DoneItems, InOrder;
    NothingOpen(c);
    DoneItemsOne(c.sent, Ok(Completed([], c.usage)));
    assert DoneItems(c.sent) + [] == DoneItems(c.sent);
  }

  lemma PollFinishes(a: Assembler, poll: Poll)
    requires FinishesOnce(a) && !a.closed && HasOneChoice(poll)
    ensures FinishesOnce(ApplyPoll(a, poll))
  {
    hide DoneItems, FlushAndComplete, ApplyChunk, InOrder;
    FlushFinishes(a);
    match poll
    case TransportError(message) => if !a.pending { FailFinishes(a, StreamError(message)); }
    case TimedOut => if !a.pending { FailFinishes(a, StreamError(IDLE_TIMEOUT)); }
    case Data(ChunkData(chunk)) => ChunkFinishes(a, chunk);
    case _ =>
  }

  lemma {:induction false} PollsFinish(polls: seq<Poll>)
    requires forall i :: 0 <= i < |polls| ==> HasOneChoice(polls[i])
    ensures FinishesOnce(ApplyPolls(START, polls))
  {
    hide FinishesOnce, ApplyPoll, HasOneChoice;
    if polls == [] {
      StartFinishes();
    } else {
      var n := |polls| - 1;
      PollsFinish(polls[..n]);
      var b := ApplyPolls(START, polls[..n]);
      if !b.closed {
        PollFinishes(b, polls[n]);
      }
    }
  }

  lemma StartFinishes()
    ensures FinishesOnce(START)
  {
  }

  /** A stream with one choice per chunk finishes no message behind a call, and if it fails it has
      finished nothing. */
  lemma OneChoiceInOrder(polls: seq<Poll>)
    requires forall i :: 0 <= i < |polls| ==> HasOneChoice(polls[i])
    ensures var log := ProcessAll(polls).sent;
            InOrder(DoneItems(log)) && (!Completes(log) ==> DoneItems(log) == [])
  {
    hide FinishesOnce, ApplyPolls, FlushAndComplete, InOrder, DoneItems;
    PollsFinish(polls);
    var a := ApplyPolls(START, polls);
    if !a.closed {
      FlushFinishes(a);
      CompletesByFlush(a);
    }
    ClosedFinishes(ProcessAll(polls));
  }

  lemma CompletesByFlush(a: Assembler)
    ensures FlushAndComplete(a).closed
  {
  }

  lemma ClosedFinishes(a: Assembler)
    requires FinishesOnce(a) && a.closed
    ensures InOrder(DoneItems(a.sent)) && (!Completes(a.sent) ==> DoneItems(a.sent) == [])
  {
  }

  /** The items of one choice of a whole response: reasoning, then the message, then the calls. */
  lemma WholeChoiceInOrder(choices: seq<Choice>)
    requires |choices| <= 1 && ChoicesItems(choices).Ok?
    ensures InOrder(ChoicesItems(choices).value)
  {
    hide RefusalError, WholeCallItems;
    if choices != [] {
      assert choices[..0] == [];
      var choice := choices[0];
      if choice.message.Some? {
        var calls := WholeCallItems(OrEmpty(choice.message.value.toolCalls));
        WholeCallsAreCalls(OrEmpty(choice.message.value.toolCalls));
        var said := ReasoningItems(choice.message.value) + MessageItems(choice.message.value);
        assert forall i :: 0 <= i < |said| ==> !said[i].ToolCall?;
        assert ChoicesItems(choices).value == [] + (said + calls.value) == said + calls.value;
      } else {
        assert ChoicesItems(choices).value == [] + [];
      }
    }
  }

  lemma {:induction false} WholeCallsAreCalls(calls: seq<WholeCall>)
    ensures var items := WholeCallItems(calls);
            items.Ok? ==> forall i :: 0 <= i < |items.value| ==>
              items.value[i].ToolCall? && items.value[i].payload.JsonArguments?
  {
    if calls != [] {
      WholeCallsAreCalls(calls[..|calls| - 1]);
    }
  }
}
