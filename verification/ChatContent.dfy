/** The text that a chat stream sends, against what is read directly off its polls: every text and
    reasoning delta of the choices up to the one that fails, of the polls up to the one that ends
    the reading, in order and nothing else (src/llm/src/api/sse/chat.rs:230-277, 345-358). */
module ChatContent {
  import opened Basics
  import opened Transcript
  import opened ChatWire
  import opened ChatAssembler
  import opened ChatAgreement
  import opened ChatFailures
  import opened ChatEnding
  import ToolCallTable

  // ---------------------------------------------------------------------------
  // Read off the polls

  /** A delta of text or of reasoning. */
  datatype Piece = Speech(text: string) | Thought(text: string)

  function Texts(texts: seq<string>): seq<Piece> {
    if texts == [] then [] else [Speech(texts[0])] + Texts(texts[1..])
  }

  /** The texts of a content list: those of its objects; strings are skipped. */
  function PartsIn(parts: seq<ContentPart>): seq<Piece> {
    if parts == [] then []
    else
      (match parts[0]
       case PartObject(Some(text)) => [Speech(text)]
       case _ => []) + PartsIn(parts[1..])
  }

  function TextIn(content: Option<ContentValue>): seq<Piece> {
    match content
    case Some(ContentString(s)) => [Speech(s)]
    case Some(ContentParts(parts)) => PartsIn(parts)
    case _ => []
  }

  function ThoughtIn(value: Option<ReasoningValue>): seq<Piece> {
    match value
    case Some(ReasoningString(s)) => [Thought(s)]
    case Some(ReasoningObject(Some(text), _)) => [Thought(text)]
    case Some(ReasoningObject(None, Some(content))) => [Thought(content)]
    case _ => []
  }

  /** The reasoning and the text of the delta, then the reasoning of the message. */
  function ChoiceIn(choice: Choice): seq<Piece> {
    (if choice.delta.Some? then ThoughtIn(choice.delta.value.reasoning) + TextIn(choice.delta.value.content) else [])
    + (if choice.message.Some? then ThoughtIn(choice.message.value.reasoning) else [])
  }

  /** Refused, as opposed to cut off by its length. */
  predicate IsRefused(choice: Choice) {
    MessageRefuses(choice) || DeltaRefuses(choice) || choice.finishReason == Some("content_filter")
  }

  /** What the choices of a chunk bring: up to the first that fails; one that only is too long still
      brings its own. */
  function ChoicesIn(choices: seq<Choice>): seq<Piece> {
    if choices == [] then []
    else
      var n := |choices| - 1;
      ChoicesIn(choices[..n])
      + if AnyFails(choices[..n]) || IsRefused(choices[n]) then [] else ChoiceIn(choices[n])
  }

  /** What a stream brings: polls bring content up to the one that ends the reading. */
  function PollsIn(polls: seq<Poll>): seq<Piece> {
    if polls == [] then []
    else
      var n := |polls| - 1;
      PollsIn(polls[..n]) + if OnlyContentUpTo(polls, n) then ChoicesIn(ChoicesOf(polls[n])) else []
  }

  // ---------------------------------------------------------------------------
  // Read off the log

  function PieceOf(o: Output): seq<Piece> {
    match o
    case Ok(OutputTextDelta(delta)) => [Speech(delta)]
    case Ok(ReasoningContentDelta(delta, _)) => [Thought(delta)]
    case _ => []
  }

  function Sent(log: seq<Output>): seq<Piece> {
    if log == [] then [] else Sent(log[..|log| - 1]) + PieceOf(log[|log| - 1])
  }

  lemma SentOne(log: seq<Output>, o: Output)
    ensures Sent(log + [o]) == Sent(log) + PieceOf(o)
  {
    assert (log + [o])[..|log|] == log;
  }

  lemma {:induction false} SentAppend(a: seq<Output>, b: seq<Output>)
    ensures Sent(a + b) == Sent(a) + Sent(b)
  {
    hide PieceOf;
    if b == [] {
      assert a + b == a;
    } else {
      var n := |b| - 1;
      assert (a + b)[..|a| + n] == a + b[..n];
      SentAppend(a, b[..n]);
      Associative(Sent(a), Sent(b[..n]), PieceOf(b[n]));
    }
  }

  lemma {:induction false} SilentEvents(log: seq<Output>)
    requires forall i :: 0 <= i < |log| ==> PieceOf(log[i]) == []
    ensures Sent(log) == []
  {
    hide PieceOf;
    if log != [] {
      SilentEvents(log[..|log| - 1]);
    }
  }

  /** Events without text or reasoning add none. */
  lemma Silent(log: seq<Output>, more: seq<Output>)
    requires forall i :: 0 <= i < |more| ==> PieceOf(more[i]) == []
    ensures Sent(log + more) == Sent(log)
  {
    SilentEvents(more);
    SentAppend(log, more);
    assert Sent(log) + [] == Sent(log);
  }

  // ---------------------------------------------------------------------------
  // They agree

  lemma ThoughtSent(a: Assembler, value: Option<ReasoningValue>)
    ensures Sent(AppendReasoning(a, ReasoningTextOf(value)).sent) == Sent(a.sent) + ThoughtIn(value)
  {
    var text := ReasoningTextOf(value);
    ThoughtIs(value);
    hide ReasoningTextOf, ThoughtIn, Sent;
    if text.None? {
      assert Sent(a.sent) + [] == Sent(a.sent);
    } else {
      var o := OpenReasoning(a);
      var opens := if a.reasoning.Some? then [] else [Ok(OutputItemAdded(ReasoningItem([])))];
      assert o.sent == a.sent + opens;
      Silent(a.sent, opens);
      SentOne(o.sent, Ok(ReasoningContentDelta(text.value, |o.reasoning.value|)));
    }
  }

  lemma ThoughtIs(value: Option<ReasoningValue>)
    ensures ThoughtIn(value)
         == if ReasoningTextOf(value).Some? then [Thought(ReasoningTextOf(value).value)] else []
  {
  }

  lemma TextSent(a: Assembler, text: string)
    ensures Sent(AppendAssistant(a, text).sent) == Sent(a.sent) + [Speech(text)]
  {
    hide PlanText.Run, PlanParser.Coalesce, ProposedPlanText.DeltaTexts;
    var o := OpenAssistant(a);
    var plans := PlanDeltasOf(PlanText.Run(ParserOf(o), text).1);
    var opens := if a.assistant.Some? then [] else [Ok(OutputItemAdded(AssistantMessage([])))];
    assert o.sent == a.sent + opens;
    Silent(a.sent, opens);
    Silent(o.sent, plans);
    SentOne(o.sent + plans, Ok(OutputTextDelta(text)));
  }

  lemma {:induction false} TextsSent(a: Assembler, texts: seq<string>)
    ensures Sent(AppendAssistantAll(a, texts).sent) == Sent(a.sent) + Texts(texts)
  {
    hide AppendAssistant, Sent;
    if texts == [] {
      assert Sent(a.sent) + [] == Sent(a.sent);
    } else {
      var n := |texts| - 1;
      TextsSent(a, texts[..n]);
      TextSent(AppendAssistantAll(a, texts[..n]), texts[n]);
      TextsSnoc(texts[..n], texts[n]);
      assert texts[..n] + [texts[n]] == texts;
    }
  }

  lemma {:induction false} TextsSnoc(texts: seq<string>, last: string)
    ensures Texts(texts + [last]) == Texts(texts) + [Speech(last)]
  {
    if texts == [] {
      assert texts + [last] == [last] && [last][1..] == [];
    } else {
      assert (texts + [last])[1..] == texts[1..] + [last];
      TextsSnoc(texts[1..], last);
    }
  }

  lemma {:induction false} PartsSnoc(parts: seq<ContentPart>, last: ContentPart)
    ensures PartsIn(parts + [last]) == PartsIn(parts) + PartsIn([last])
  {
    if parts == [] {
      assert parts + [last] == [last];
    } else {
      var all := parts + [last];
      assert all[0] == parts[0] && all[1..] == parts[1..] + [last];
      PartsFirst(all);
      PartsFirst(parts);
      hide PartsIn;
      PartsSnoc(parts[1..], last);
      Associative(PartsIn([parts[0]]), PartsIn(parts[1..]), PartsIn([last]));
    }
  }

  lemma PartsFirst(parts: seq<ContentPart>)
    requires parts != []
    ensures PartsIn(parts) == PartsIn([parts[0]]) + PartsIn(parts[1..])
  {
    assert [parts[0]][1..] == [] && PartsIn([]) == [];
  }

  lemma {:induction false} PartsAgree(parts: seq<ContentPart>)
    ensures Texts(PartTexts(parts)) == PartsIn(parts)
  {
    if parts != [] {
      var n := |parts| - 1;
      PartsAgree(parts[..n]);
      PartsSnoc(parts[..n], parts[n]);
      assert parts[..n] + [parts[n]] == parts;
      OnePart(parts[n]);
      if parts[n].PartObject? && parts[n].text.Some? {
        TextsSnoc(PartTexts(parts[..n]), parts[n].text.value);
      } else {
        assert PartTexts(parts[..n]) + [] == PartTexts(parts[..n]);
        assert PartsIn(parts[..n]) + [] == PartsIn(parts[..n]);
      }
    }
  }

  lemma OnePart(part: ContentPart)
    ensures PartsIn([part]) == if part.PartObject? && part.text.Some? then [Speech(part.text.value)] else []
  {
    assert [part][1..] == [];
  }

  lemma ContentAgrees(content: Option<ContentValue>)
    ensures Texts(StreamedTexts(content)) == TextIn(content)
  {
    match content
    case Some(ContentString(s)) => assert [s][1..] == [];
    case Some(ContentParts(parts)) => PartsAgree(parts);
    case _ =>
  }

  lemma ChoiceSent(a: Assembler, choice: Choice)
    ensures Sent(ApplyContent(a, choice).sent) == Sent(a.sent) + ChoiceIn(choice)
  {
    hide AppendReasoning, AppendAssistantAll, ThoughtIn, TextIn, Sent, ReasoningTextOf, StreamedTexts,
      ToolCallTable.AddAll;
    var d := a;
    var front: seq<Piece> := [];
    assert Sent(a.sent) + [] == Sent(a.sent);
    if choice.delta.Some? {
      var delta := choice.delta.value;
      var r := AppendReasoning(a, ReasoningTextOf(delta.reasoning));
      ThoughtSent(a, delta.reasoning);
      TextsSent(r, StreamedTexts(delta.content));
      ContentAgrees(delta.content);
      d := ApplyDelta(a, delta);
      front := ThoughtIn(delta.reasoning) + TextIn(delta.content);
      Associative(Sent(a.sent), ThoughtIn(delta.reasoning), TextIn(delta.content));
    }
    if choice.message.Some? {
      var thought := ThoughtIn(choice.message.value.reasoning);
      ThoughtSent(d, choice.message.value.reasoning);
      Associative(Sent(a.sent), front, thought);
    } else {
      assert front + [] == front;
    }
  }

  lemma ClosingIsSilent(a: Assembler)
    ensures Sent(CloseAssistant(CloseReasoning(a)).sent) == Sent(a.sent)
  {
    hide PlanText.FinishAtoms, PlanParser.Coalesce, ProposedPlanText.DeltaTexts, ProposedPlanText.ProposedPlan;
    var r := CloseReasoning(a);
    if a.reasoning.Some? {
      Silent(a.sent, [Ok(OutputItemDone(ReasoningItem(a.reasoning.value)))]);
    }
    if a.assistant.Some? {
      var texts := a.assistant.value;
      var rest := if r.parser.Some? then PlanDeltasOf(PlanText.FinishAtoms(r.parser.value)) else [];
      Silent(r.sent, rest);
      Silent(r.sent + rest, PlanDoneEvent(texts));
      Silent(r.sent + rest + PlanDoneEvent(texts), [Ok(OutputItemDone(AssistantMessage(texts)))]);
    }
  }

  lemma FinishIsSilent(a: Assembler, reason: Option<string>)
    ensures Sent(ApplyFinish(a, reason).0.sent) == Sent(a.sent)
  {
    hide CloseAssistant, CloseReasoning, Sent, ToolCallTable.CallItems;
    ClosingIsSilent(a);
    var c := CloseAssistant(CloseReasoning(a));
    Silent(c.sent, DoneEvents(ToolCallTable.CallItems(c.calls.slots, c.calls.order)));
    Silent(a.sent, [Err(ContextWindowExceeded)]);
  }

  lemma FlushIsSilent(a: Assembler)
    ensures Sent(FlushAndComplete(a).sent) == Sent(a.sent)
  {
    hide CloseAssistant, CloseReasoning, Sent;
    ClosingIsSilent(a);
    Silent(CloseAssistant(CloseReasoning(a)).sent,
           [Ok(Completed([], CloseAssistant(CloseReasoning(a)).usage))]);
    ClosingKeepsTheRest(a);
  }

  lemma RefusedIff(choice: Choice)
    ensures IsRefused(choice) <==> RefusalError(choice).Some?
  {
    hide Speaks, Refuses;
    if choice.message.Some? {
      SpeaksIff(choice.message.value.refusal);
    }
    if choice.delta.Some? {
      SpeaksIff(choice.delta.value.refusal);
    }
  }

  lemma {:induction false} ChoicesSent(a: Assembler, choices: seq<Choice>)
    requires !a.closed
    ensures Sent(ApplyChoices(a, choices).0.sent) == Sent(a.sent) + ChoicesIn(choices)
  {
    hide ApplyContent, ApplyFinish, RefusalError, Sent, IsRefused, AnyFails, ChoiceIn;
    if choices == [] {
      assert Sent(a.sent) + [] == Sent(a.sent);
    } else {
      var n := |choices| - 1;
      var front, last := choices[..n], choices[n];
      ChoicesSent(a, front);
      ChoicesEnd(a, front);
      var b := ApplyChoices(a, front).0;
      assert ChoicesIn(front) + [] == ChoicesIn(front);
      if !b.closed {
        RefusedIff(last);
        ChoiceSent(b, last);
        FinishIsSilent(ApplyContent(b, last), last.finishReason);
        if RefusalError(last).Some? {
          Silent(b.sent, [Err(RefusalError(last).value)]);
        }
        Associative(Sent(a.sent), ChoicesIn(front), ChoiceIn(last));
      }
    }
  }

  /** One poll of a stream that is being read. */
  lemma PollSent(a: Assembler, poll: Poll)
    requires !a.closed && !a.pending
    ensures Sent(ApplyPoll(a, poll).sent) == Sent(a.sent) + ChoicesIn(ChoicesOf(poll))
  {
    hide FlushAndComplete, ApplyChoices, Sent;
    FlushIsSilent(a);
    assert Sent(a.sent) + [] == Sent(a.sent);
    match poll
    case TransportError(message) => Silent(a.sent, [Err(StreamError(message))]);
    case TimedOut => Silent(a.sent, [Err(StreamError(IDLE_TIMEOUT))]);
    case Data(ChunkData(chunk)) =>
      var u := if chunk.usage.Some? then a.(usage := chunk.usage) else a;
      if chunk.choices.Some? {
        ChoicesSent(u, chunk.choices.value);
        FlushIsSilent(ApplyChoices(u, chunk.choices.value).0);
      }
    case _ =>
  }

  /** One poll of a stream that waits. */
  lemma WaitIsSilent(a: Assembler, poll: Poll)
    requires !a.closed && a.pending
    ensures Sent(ApplyPoll(a, poll).sent) == Sent(a.sent)
  {
    hide FlushAndComplete, Sent;
    FlushIsSilent(a);
    if poll.Data? && poll.data.ChunkData? {
      FlushIsSilent(a.(usage := poll.data.chunk.usage));
    }
  }

  /** A stream is being read exactly as long as its polls bring only content. */
  lemma {:induction false} ReadingIff(polls: seq<Poll>)
    ensures var a := ApplyPolls(START, polls);
            !a.closed && !a.pending <==> OnlyContentUpTo(polls, |polls|)
    ensures !ApplyPolls(START, polls).closed && ApplyPolls(START, polls).pending ==>
              ApplyPolls(START, polls).usage.None?
  {
    hide ApplyPoll, OnlyContent, DoneItems, LastUsage;
    assert polls[..|polls|] == polls;
    if OnlyContentUpTo(polls, |polls|) {
      ReadsContent(polls, |polls|);
    } else {
      var n := |polls| - 1;
      ReadingIff(polls[..n]);
      var b := ApplyPolls(START, polls[..n]);
      if !b.closed {
        if b.pending {
          PollEndsWait(b, polls[n]);
        } else {
          assert OnlyContentUpTo(polls, n);
          ReadsContent(polls, n);
          PollEnds(b, polls[n], LastUsage(polls[..n]));
          EndsOrFails(polls[n]);
        }
      }
    }
  }

  lemma EndsOrFails(poll: Poll)
    requires !OnlyContent(poll)
    ensures EndsStream(poll) || ChatEnding.Finishes(poll) || exists error :: ChatEnding.FailsWith(poll, error)
  {
    hide Fails, ChoicesOf;
    if IsFailing(poll) {
      var error := FailureOf(poll);
    } else {
      NotFailing(poll);
    }
  }

  lemma {:induction false} PollsSent(polls: seq<Poll>)
    ensures Sent(ApplyPolls(START, polls).sent) == PollsIn(polls)
  {
    hide ApplyPoll, OnlyContent, Sent, ChoicesIn;
    if polls == [] {
      NothingSent();
    } else {
      var n := |polls| - 1;
      PollsSent(polls[..n]);
      ReadingIff(polls[..n]);
      assert OnlyContentUpTo(polls, n) <==> OnlyContentUpTo(polls[..n], n);
      var b := ApplyPolls(START, polls[..n]);
      assert PollsIn(polls[..n]) + [] == PollsIn(polls[..n]);
      if !b.closed {
        if b.pending {
          WaitIsSilent(b, polls[n]);
        } else {
          PollSent(b, polls[n]);
        }
      }
    }
  }

  lemma NothingSent()
    ensures Sent(START.sent) == []
  {
  }

  /** On every run: the text and reasoning deltas sent are those read off the polls, in order. */
  lemma ContentIsSent(polls: seq<Poll>)
    ensures Sent(ProcessAll(polls).sent) == PollsIn(polls)
  {
    hide ApplyPolls, FlushAndComplete, Sent, PollsIn;
    PollsSent(polls);
    FlushIsSilent(ApplyPolls(START, polls));
  }
}
