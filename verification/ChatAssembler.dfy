/** Assembling a chat stream into response events: `process_chat_sse`
    (src/llm/src/api/sse/chat.rs:61-434, 636-737).

    `ProcessAll` says on values what the stream processor sends; the class does it with the
    fields the code updates. */
module ChatAssembler {
  import opened Basics
  import opened Transcript
  import opened PlanText
  import opened PlanParser
  import opened ProposedPlanText
  import opened ToolCallTable
  import opened ChatWire

  datatype Assembler = Assembler(
    calls: Table,
    reasoning: Option<seq<string>>,
    assistant: Option<seq<string>>,
    parser: Option<State>,
    usage: Option<TokenUsage>,
    pending: bool,
    sent: seq<Output>,
    closed: bool)

  const START: Assembler := Assembler(EmptyTable(0), None, None, None, None, false, [], false)

  function Send(a: Assembler, event: ResponseEvent): Assembler {
    a.(sent := a.sent + [Ok(event)])
  }

  function Fail(a: Assembler, error: ApiError): Assembler {
    a.(sent := a.sent + [Err(error)], closed := true)
  }

  function PlanDeltaEvents(deltas: seq<string>): seq<Output> {
    seq(|deltas|, i requires 0 <= i < |deltas| => Ok(ProposedPlanDelta(deltas[i])))
  }

  function PlanDeltasOf(atoms: seq<Atom>): seq<Output> {
    PlanDeltaEvents(DeltaTexts(Coalesce(atoms)))
  }

  function ParserOf(a: Assembler): State {
    if a.parser.Some? then a.parser.value else INITIAL
  }

  function OpenAssistant(a: Assembler): Assembler {
    if a.assistant.Some? then a
    else Send(a.(assistant := Some([])), OutputItemAdded(AssistantMessage([])))
  }

  function AppendAssistant(a: Assembler, text: string): Assembler {
    var o := OpenAssistant(a);
    var (parser, atoms) := Run(ParserOf(o), text);
    Send(
      o.(parser := Some(parser), sent := o.sent + PlanDeltasOf(atoms),
         assistant := Some(o.assistant.value + [text])),
      OutputTextDelta(text))
  }

  function AppendAssistantAll(a: Assembler, texts: seq<string>): Assembler {
    if texts == [] then a
    else AppendAssistant(AppendAssistantAll(a, texts[..|texts| - 1]), texts[|texts| - 1])
  }

  function OpenReasoning(a: Assembler): Assembler {
    if a.reasoning.Some? then a
    else Send(a.(reasoning := Some([])), OutputItemAdded(ReasoningItem([])))
  }

  function AppendReasoning(a: Assembler, text: Option<string>): Assembler {
    if text.None? then a
    else
      var o := OpenReasoning(a);
      Send(o.(reasoning := Some(o.reasoning.value + [text.value])),
           ReasoningContentDelta(text.value, |o.reasoning.value|))
  }

  function CloseReasoning(a: Assembler): Assembler {
    if a.reasoning.None? then a
    else Send(a.(reasoning := None), OutputItemDone(ReasoningItem(a.reasoning.value)))
  }

  function PlanDoneEvent(texts: seq<string>): seq<Output> {
    var plan := ProposedPlan(Flatten(texts));
    if plan.Some? then [Ok(ProposedPlanDone(plan.value))] else []
  }

  function CloseAssistant(a: Assembler): Assembler {
    if a.assistant.None? then a
    else
      var texts := a.assistant.value;
      var rest := if a.parser.Some? then PlanDeltasOf(FinishAtoms(a.parser.value)) else [];
      Send(a.(assistant := None, parser := None, sent := a.sent + rest + PlanDoneEvent(texts)),
           OutputItemDone(AssistantMessage(texts)))
  }

  function FlushAndComplete(a: Assembler): Assembler {
    Send(CloseAssistant(CloseReasoning(a)), Completed([], a.usage)).(closed := true)
  }

  function DoneEvents(items: seq<TranscriptItem>): seq<Output> {
    seq(|items|, i requires 0 <= i < |items| => Ok(OutputItemDone(items[i])))
  }

  function ApplyDelta(a: Assembler, delta: Delta): Assembler {
    var r := AppendReasoning(a, ReasoningTextOf(delta.reasoning));
    var t := AppendAssistantAll(r, StreamedTexts(delta.content));
    t.(calls := AddAll(t.calls, ToolDeltas(delta)))
  }

  function ApplyMessage(a: Assembler, message: ChatMessage): Assembler {
    AppendReasoning(a, ReasoningTextOf(message.reasoning))
  }

  function ApplyContent(a: Assembler, choice: Choice): Assembler {
    var d := if choice.delta.Some? then ApplyDelta(a, choice.delta.value) else a;
    if choice.message.Some? then ApplyMessage(d, choice.message.value) else d
  }

  /** The effect of a finish reason, and whether it ends the response. */
  function ApplyFinish(a: Assembler, finishReason: Option<string>): (Assembler, bool) {
    if finishReason == Some("stop") then
      var c := CloseAssistant(CloseReasoning(a));
      (c.(calls := EmptyTable(c.calls.next)), true)
    else if finishReason == Some("length") then
      (Fail(a, ContextWindowExceeded), false)
    else if finishReason == Some("tool_calls") then
      var c := CloseAssistant(CloseReasoning(a));
      (c.(calls := EmptyTable(c.calls.next), sent := c.sent + DoneEvents(CallItems(c.calls.slots, c.calls.order))),
       true)
    else (a, false)
  }

  function ApplyChoice(a: Assembler, choice: Choice): (Assembler, bool) {
    if RefusalError(choice).Some? then (Fail(a, RefusalError(choice).value), false)
    else ApplyFinish(ApplyContent(a, choice), choice.finishReason)
  }

  function ApplyChoices(a: Assembler, choices: seq<Choice>): (Assembler, bool) {
    if choices == [] then (a, false)
    else
      var (b, terminal) := ApplyChoices(a, choices[..|choices| - 1]);
      if b.closed then (b, terminal)
      else
        var (c, now) := ApplyChoice(b, choices[|choices| - 1]);
        (c, terminal || now)
  }

  function ApplyChunk(a: Assembler, chunk: Chunk): Assembler {
    var u := if chunk.usage.Some? then a.(usage := chunk.usage) else a;
    if u.pending then
      if u.usage.Some? then FlushAndComplete(u) else u
    else if chunk.choices.None? then u
    else
      var (c, terminal) := ApplyChoices(u, chunk.choices.value);
      if c.closed || !terminal then c
      else if c.usage.Some? then FlushAndComplete(c)
      else c.(pending := true)
  }

  const IDLE_TIMEOUT: string := "idle timeout waiting for SSE"

  function ApplyPoll(a: Assembler, poll: Poll): Assembler {
    match poll
    case TransportError(message) => if a.pending then FlushAndComplete(a) else Fail(a, StreamError(message))
    case EndOfStream => FlushAndComplete(a)
    case TimedOut => if a.pending then FlushAndComplete(a) else Fail(a, StreamError(IDLE_TIMEOUT))
    case Data(BlankData) => a
    case Data(NotJson) => a
    case Data(DoneSentinel) => FlushAndComplete(a)
    case Data(ChunkData(chunk)) => ApplyChunk(a, chunk)
  }

  /** The state after some polls; polls after the processor returned are not made. */
  function ApplyPolls(a: Assembler, polls: seq<Poll>): Assembler {
    if polls == [] then a
    else
      var b := ApplyPolls(a, polls[..|polls| - 1]);
      if b.closed then b else ApplyPoll(b, polls[|polls| - 1])
  }

  /** A whole run; a stream that yields no more polls has ended. */
  function ProcessAll(polls: seq<Poll>): Assembler {
    var a := ApplyPolls(START, polls);
    if a.closed then a else FlushAndComplete(a)
  }

  ghost predicate Sound(a: Assembler) {
    Consistent(a.calls) && (a.parser.Some? ==> a.parser.value.Valid())
  }

  // ---------------------------------------------------------------------------
  // The processor object

  class ChatStream {
    const calls: ToolCalls
    var reasoning: Option<seq<string>>
    var assistant: Option<seq<string>>
    var parser: ProposedPlanParser?
    var usage: Option<TokenUsage>
    var completionPending: bool
    var sent: seq<Output>
    var closed: bool

    function Current(): Assembler
      reads this, calls, parser
    {
      Assembler(calls.Contents(), reasoning, assistant,
                if parser == null then None else Some(parser.Current()),
                usage, completionPending, sent, closed)
    }

    ghost predicate Valid()
      reads this, calls, parser
    {
      Sound(Current())
    }

    constructor ()
      ensures Valid() && Current() == START
      ensures fresh(calls) && parser == null
    {
      calls := new ToolCalls();
      reasoning, assistant, parser, usage := None, None, null, None;
      completionPending, sent, closed := false, [], false;
    }

    method SendEvent(event: ResponseEvent)
      modifies this`sent
      ensures sent == old(sent) + [Ok(event)]
    {
      sent := sent + [Ok(event)];
    }

    method EmitPlanDeltas(segments: seq<Segment>)
      modifies this`sent
      ensures sent == old(sent) + PlanDeltaEvents(DeltaTexts(segments))
    {
      ghost var before := sent;
      assert segments[..0] == [];
      for i := 0 to |segments|
        invariant sent == before + PlanDeltaEvents(DeltaTexts(segments[..i]))
      {
        assert segments[..i + 1][..i] == segments[..i];
        if segments[i].PlanDelta? {
          SendEvent(ProposedPlanDelta(segments[i].text));
        }
      }
      assert segments[..|segments|] == segments;
    }

    method AppendAssistantText(text: string)
      requires Valid()
      modifies this, parser
      ensures Valid() && Current() == AppendAssistant(old(Current()), text)
      ensures parser != null && (parser == old(parser) || fresh(parser))
    {
      hide Run, Coalesce, DeltaTexts, PlanDeltaEvents, Consistent, Remaining;
      if assistant.None? {
        assistant := Some([]);
        SendEvent(OutputItemAdded(AssistantMessage([])));
      }
      if parser == null {
        parser := new ProposedPlanParser();
        InitialIsValid();
      }
      RunRemaining(parser.Current(), text, []);
      var segments := parser.Parse(text);
      EmitPlanDeltas(segments);
      assistant := Some(assistant.value + [text]);
      SendEvent(OutputTextDelta(text));
    }

    method AppendReasoningText(text: string)
      requires Valid()
      modifies this`reasoning, this`sent
      ensures Valid() && Current() == AppendReasoning(old(Current()), Some(text))
    {
      if reasoning.None? {
        reasoning := Some([]);
        SendEvent(OutputItemAdded(ReasoningItem([])));
      }
      var contentIndex := |reasoning.value|;
      reasoning := Some(reasoning.value + [text]);
      SendEvent(ReasoningContentDelta(text, contentIndex));
    }

    /** The rest of the plan deltas of a closing assistant item, then its plan if it has one. */
    method EmitBufferedPlanEvents(texts: seq<string>)
      requires Valid()
      modifies this, parser
      ensures Valid() && parser == null
      ensures Current() == old(Current()).(parser := None, sent := sent)
      ensures sent == old(sent)
                      + (if old(Current()).parser.Some?
                         then PlanDeltasOf(FinishAtoms(old(Current()).parser.value)) else [])
                      + PlanDoneEvent(texts)
    {
      hide Coalesce, DeltaTexts, PlanDeltaEvents, FinishAtoms, ProposedPlan, Consistent, Flatten;
      if parser != null {
        var segments := parser.Finish();
        EmitPlanDeltas(segments);
      }
      parser := null;
      var plan := ExtractProposedPlanText(Flatten(texts));
      if plan.Some? {
        SendEvent(ProposedPlanDone(plan.value));
      }
    }

    /** Takes and reports both open items, as every end of a response does. */
    method CloseItems()
      requires Valid()
      modifies this, parser
      ensures Valid() && Current() == CloseAssistant(CloseReasoning(old(Current())))
      ensures parser == null || parser == old(parser)
    {
      hide PlanDeltasOf, PlanDoneEvent, Consistent, FinishAtoms;
      if reasoning.Some? {
        var item := ReasoningItem(reasoning.value);
        reasoning := None;
        SendEvent(OutputItemDone(item));
      }
      if assistant.Some? {
        var texts := assistant.value;
        assistant := None;
        EmitBufferedPlanEvents(texts);
        SendEvent(OutputItemDone(AssistantMessage(texts)));
      }
    }

    method Complete()
      requires Valid()
      modifies this, parser
      ensures Valid() && Current() == FlushAndComplete(old(Current()))
      ensures parser == null || parser == old(parser)
    {
      ClosingKeepsTheRest(Current());
      hide CloseAssistant, CloseReasoning, Consistent;
      CloseItems();
      SendEvent(Completed([], usage));
      closed := true;
    }

    method SendError(error: ApiError)
      requires Valid()
      modifies this`sent, this`closed
      ensures Valid() && Current() == Fail(old(Current()), error)
    {
      sent := sent + [Err(error)];
      closed := true;
    }

    method AppendContent(content: Option<ContentValue>)
      requires Valid()
      modifies this, parser
      ensures Valid() && Current() == AppendAssistantAll(old(Current()), StreamedTexts(content))
      ensures parser == null || parser == old(parser) || fresh(parser)
    {
      hide AppendAssistant, Sound;
      ghost var start := Current();
      match content {
        case Some(ContentParts(parts)) => AppendParts(parts);
        case Some(ContentString(text)) =>
          AppendOneMore(start, [], text);
          assert [] + [text] == [text];
          AppendAssistantText(text);
        case _ =>
      }
    }

    /** The texts of the objects in a content list. */
    method AppendParts(parts: seq<ContentPart>)
      requires Valid()
      modifies this, parser
      ensures Valid() && Current() == AppendAssistantAll(old(Current()), PartTexts(parts))
      ensures parser == null || parser == old(parser) || fresh(parser)
    {
      hide AppendAssistant, Sound, AppendAssistantAll, PartTexts;
      ghost var start := Current();
      NoParts(start);
      assert parts[..0] == [];
      for i := 0 to |parts|
        invariant Valid()
        invariant Current() == AppendAssistantAll(start, PartTexts(parts[..i]))
        invariant parser == null || parser == old(parser) || fresh(parser)
      {
        PartTextsStep(parts, i);
        if parts[i].PartObject? && parts[i].text.Some? {
          AppendOneMore(start, PartTexts(parts[..i]), parts[i].text.value);
          AppendAssistantText(parts[i].text.value);
        }
      }
      assert parts[..|parts|] == parts;
    }

    method AppendReasoningValue(value: Option<ReasoningValue>)
      requires Valid()
      modifies this`reasoning, this`sent
      ensures Valid() && Current() == AppendReasoning(old(Current()), ReasoningTextOf(value))
    {
      var text := ReasoningTextOf(value);
      if text.Some? {
        AppendReasoningText(text.value);
      }
    }

    method AcceptToolDeltas(ds: seq<ToolDelta>)
      requires Valid()
      modifies calls
      ensures Valid() && Current() == old(Current()).(calls := AddAll(old(Current()).calls, ds))
    {
      hide Add, Consistent;
      ghost var start := calls.Contents();
      assert ds[..0] == [];
      for i := 0 to |ds|
        invariant calls.Contents() == AddAll(start, ds[..i]) && Consistent(calls.Contents())
      {
        assert ds[..i + 1][..i] == ds[..i];
        AddKeepsConsistent(calls.Contents(), ds[i]);
        calls.Accept(ds[i]);
      }
      assert ds[..|ds|] == ds;
    }

    method AppendChoiceContent(choice: Choice)
      requires Valid()
      modifies this, parser, calls
      ensures Valid() && Current() == ApplyContent(old(Current()), choice)
      ensures parser == null || parser == old(parser) || fresh(parser)
    {
      hide AppendAssistantAll, AppendReasoning, AddAll, StreamedTexts, ReasoningTextOf, Sound;
      if choice.delta.Some? {
        AppendReasoningValue(choice.delta.value.reasoning);
        AppendContent(choice.delta.value.content);
        AcceptToolDeltas(ToolDeltas(choice.delta.value));
      }
      if choice.message.Some? {
        AppendReasoningValue(choice.message.value.reasoning);
      }
    }

    /** One choice; says whether its finish reason ends the response. */
    method ProcessChoice(choice: Choice) returns (terminal: bool)
      requires Valid() && !closed
      modifies this, parser, calls
      ensures Valid() && (Current(), terminal) == ApplyChoice(old(Current()), choice)
      ensures parser == null || parser == old(parser) || fresh(parser)
    {
      hide ApplyContent, CloseAssistant, CloseReasoning, CallItems, RefusalError, Consistent;
      terminal := false;
      var refusal := RefusalError(choice);
      if refusal.Some? {
        SendError(refusal.value);
        return;
      }
      AppendChoiceContent(choice);
      if choice.finishReason == Some("stop") {
        CloseItems();
        calls.Clear();
        terminal := true;
        EmptyIsConsistent(calls.nextIndex);
      } else if choice.finishReason == Some("length") {
        SendError(ContextWindowExceeded);
      } else if choice.finishReason == Some("tool_calls") {
        CloseItems();
        ReportCalls();
        terminal := true;
      }
    }

    method ReportCalls()
      requires Valid()
      modifies this`sent, calls
      ensures Valid()
      ensures Current() == old(Current()).(
                calls := EmptyTable(old(calls.nextIndex)),
                sent := old(sent) + DoneEvents(CallItems(old(calls.toolCalls), old(calls.order))))
    {
      hide CallItems, Consistent;
      var items := calls.Drain();
      ghost var before := sent;
      EmptyIsConsistent(calls.nextIndex);
      for i := 0 to |items|
        invariant Valid()
        invariant Current() == old(Current()).(calls := calls.Contents(), sent := before + DoneEvents(items[..i]))
        invariant calls.Contents() == EmptyTable(old(calls.nextIndex))
      {
        SendEvent(OutputItemDone(items[i]));
        assert DoneEvents(items[..i + 1]) == DoneEvents(items[..i]) + [Ok(OutputItemDone(items[i]))];
      }
      assert items[..|items|] == items;
    }

    method ProcessChunk(chunk: Chunk)
      requires Valid() && !closed
      modifies this, parser, calls
      ensures Valid() && Current() == ApplyChunk(old(Current()), chunk)
      ensures parser == null || parser == old(parser) || fresh(parser)
    {
      hide ApplyChoice, FlushAndComplete, Sound;
      if chunk.usage.Some? {
        usage := chunk.usage;
      }
      assert Valid() by { SoundWithUsage(old(Current()), usage); }
      if completionPending && usage.Some? {
        Complete();
        return;
      }
      if completionPending || chunk.choices.None? {
        return;
      }
      ghost var start := Current();
      var terminal := ProcessChoices(chunk.choices.value);
      if closed {
        return;
      }
      if terminal {
        if usage.Some? {
          Complete();
          return;
        }
        completionPending := true;
        SoundWithPending(ApplyChoices(start, chunk.choices.value).0);
      }
    }

    /** The choices of a chunk, until one of them ends the stream. */
    method ProcessChoices(choices: seq<Choice>) returns (terminal: bool)
      requires Valid() && !closed
      modifies this, parser, calls
      ensures Valid() && (Current(), terminal) == ApplyChoices(old(Current()), choices)
      ensures parser == null || parser == old(parser) || fresh(parser)
    {
      hide ApplyChoice, Sound;
      ghost var start := Current();
      terminal := false;
      assert choices[..0] == [];
      for i := 0 to |choices|
        invariant Valid() && !closed
        invariant (Current(), terminal) == ApplyChoices(start, choices[..i])
        invariant parser == null || parser == old(parser) || fresh(parser)
      {
        assert choices[..i + 1][..i] == choices[..i];
        var now := ProcessChoice(choices[i]);
        terminal := terminal || now;
        if closed {
          ClosedEarly(start, choices, i + 1);
          return;
        }
      }
      assert choices[..|choices|] == choices;
    }

    method ProcessPoll(poll: Poll)
      requires Valid() && !closed
      modifies this, parser, calls
      ensures Valid() && Current() == ApplyPoll(old(Current()), poll)
      ensures parser == null || parser == old(parser) || fresh(parser)
    {
      hide ApplyChunk, FlushAndComplete, Fail, Sound;
      match poll {
        case TransportError(message) =>
          if completionPending { Complete(); } else { SendError(StreamError(message)); }
        case EndOfStream => Complete();
        case TimedOut =>
          if completionPending { Complete(); } else { SendError(StreamError(IDLE_TIMEOUT)); }
        case Data(BlankData) =>
        case Data(NotJson) =>
        case Data(DoneSentinel) => Complete();
        case Data(ChunkData(chunk)) => ProcessChunk(chunk);
      }
    }

    /** The receive loop, over the polls the event source answers. */
    method ProcessChatSse(polls: seq<Poll>)
      requires Valid() && Current() == START
      modifies this, parser, calls
      ensures closed && Current() == ProcessAll(polls)
    {
      hide ApplyPoll, FlushAndComplete, Sound;
      assert polls[..0] == [];
      var i := 0;
      while i < |polls|
        invariant 0 <= i <= |polls|
        invariant Valid() && !closed && Current() == ApplyPolls(START, polls[..i])
        invariant parser == null || parser == old(parser) || fresh(parser)
      {
        assert polls[..i + 1][..i] == polls[..i];
        ProcessPoll(polls[i]);
        i := i + 1;
        if closed {
          ClosedPolls(START, polls, i);
          return;
        }
      }
      assert polls[..|polls|] == polls;
      ProcessPoll(EndOfStream);
      EndOfStreamCloses(ApplyPolls(START, polls));
    }
  }

  lemma ClosingKeepsTheRest(a: Assembler)
    ensures var c := CloseAssistant(CloseReasoning(a));
            c == a.(reasoning := None, assistant := None, sent := c.sent, parser := c.parser)
    ensures a.assistant.Some? ==> CloseAssistant(CloseReasoning(a)).parser == None
    ensures a.assistant.None? ==> CloseAssistant(CloseReasoning(a)).parser == a.parser
  {
    hide PlanDeltasOf, PlanDoneEvent;
  }

  lemma NoParts(a: Assembler)
    ensures PartTexts([]) == [] && AppendAssistantAll(a, []) == a
  {
  }

  lemma PartTextsStep(parts: seq<ContentPart>, i: nat)
    requires i < |parts|
    ensures PartTexts(parts[..i + 1])
         == if parts[i].PartObject? && parts[i].text.Some? then PartTexts(parts[..i]) + [parts[i].text.value]
            else PartTexts(parts[..i])
  {
    assert parts[..i + 1][..i] == parts[..i];
    assert PartTexts(parts[..i]) + [] == PartTexts(parts[..i]);
  }

  lemma AppendOneMore(a: Assembler, texts: seq<string>, text: string)
    ensures AppendAssistantAll(a, texts + [text]) == AppendAssistant(AppendAssistantAll(a, texts), text)
  {
    hide AppendAssistant;
    assert (texts + [text])[..|texts|] == texts;
  }

  lemma EmptyIsConsistent(next: nat)
    ensures Consistent(EmptyTable(next))
  {
  }

  lemma SoundWithUsage(a: Assembler, usage: Option<TokenUsage>)
    requires Sound(a)
    ensures Sound(a.(usage := usage))
  {
  }

  lemma SoundWithPending(a: Assembler)
    requires Sound(a)
    ensures Sound(a.(pending := true))
  {
  }

  /** Choices after the processor returned change nothing. */
  lemma {:induction false} ClosedEarly(a: Assembler, choices: seq<Choice>, i: nat)
    requires i <= |choices| && ApplyChoices(a, choices[..i]).0.closed
    ensures ApplyChoices(a, choices) == ApplyChoices(a, choices[..i])
    decreases |choices|
  {
    hide ApplyChoice;
    if i < |choices| {
      var front := choices[..|choices| - 1];
      assert front[..i] == choices[..i];
      ClosedEarly(a, front, i);
    } else {
      assert choices[..i] == choices;
    }
  }

  lemma {:induction false} ClosedPolls(a: Assembler, polls: seq<Poll>, i: nat)
    requires i <= |polls| && ApplyPolls(a, polls[..i]).closed
    ensures ApplyPolls(a, polls) == ApplyPolls(a, polls[..i])
    decreases |polls|
  {
    hide ApplyPoll;
    if i < |polls| {
      var front := polls[..|polls| - 1];
      assert front[..i] == polls[..i];
      ClosedPolls(a, front, i);
    } else {
      assert polls[..i] == polls;
    }
  }

  lemma EndOfStreamCloses(a: Assembler)
    ensures ApplyPoll(a, EndOfStream) == FlushAndComplete(a) && FlushAndComplete(a).closed
  {
    hide CloseAssistant, CloseReasoning;
  }

  lemma InitialIsValid()
    ensures INITIAL.Valid()
  {
    EmptyCouldBeTagLine();
  }
}
