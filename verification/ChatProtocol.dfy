/** What every assembled chat stream looks like to its receiver: items open once, receive
    their deltas, close with exactly those deltas, and one terminal event comes last
    (src/llm/src/api/sse/chat.rs:92-118, 120-433, 636-737). */
module ChatProtocol {
  import opened Basics
  import opened Transcript
  import opened PlanText
  import opened PlanParser
  import opened ProposedPlanText
  import opened ToolCallTable
  import opened ChatWire
  import opened ChatAssembler

  /** What a receiver knows: the deltas of the open items, and whether the stream is over. */
  datatype View = View(
    reasoning: Option<seq<string>>, assistant: Option<seq<string>>,
    planDeltas: seq<string>, planDone: Option<string>, ended: bool)

  const NOTHING_SEEN: View := View(None, None, [], None, false)

  /** The plan deltas and the final plan of a message with these text deltas. */
  predicate PlanReported(texts: seq<string>, planDeltas: seq<string>, planDone: Option<string>) {
    && Flatten(planDeltas) == PlanChars(LineAtoms(false, Flatten(texts)))
    && planDone == ProposedPlan(Flatten(texts))
  }

  /** Accepts the next event of a well-formed stream; None rejects it. */
  function Observe(v: View, o: Output): Option<View> {
    if v.ended then None
    else match o
      case Err(_) => Some(v.(ended := true))
      case Ok(OutputItemAdded(item)) =>
        if item == AssistantMessage([]) && v.assistant.None? then Some(v.(assistant := Some([])))
        else if item == ReasoningItem([]) && v.reasoning.None? then Some(v.(reasoning := Some([])))
        else None
      case Ok(OutputTextDelta(text)) =>
        if v.assistant.Some? then Some(v.(assistant := Some(v.assistant.value + [text]))) else None
      case Ok(ReasoningContentDelta(text, index)) =>
        if v.reasoning.Some? && index == |v.reasoning.value|
        then Some(v.(reasoning := Some(v.reasoning.value + [text]))) else None
      case Ok(ProposedPlanDelta(delta)) =>
        if v.assistant.Some? && v.planDone.None? then Some(v.(planDeltas := v.planDeltas + [delta])) else None
      case Ok(ProposedPlanDone(text)) =>
        if v.assistant.Some? && v.planDone.None? then Some(v.(planDone := Some(text))) else None
      case Ok(OutputItemDone(item)) =>
        if item.ToolCall? then
          if item.payload.JsonArguments? then Some(v) else None
        else if item.Message? then
          if v.assistant.Some? && v.reasoning.None? && item == AssistantMessage(v.assistant.value)
             && PlanReported(v.assistant.value, v.planDeltas, v.planDone)
          then Some(v.(assistant := None, planDeltas := [], planDone := None)) else None
        else
          if v.reasoning.Some? && item == ReasoningItem(v.reasoning.value)
          then Some(v.(reasoning := None)) else None
      case Ok(Completed(_, _)) =>
        if v.reasoning.None? && v.assistant.None? then Some(v.(ended := true)) else None
      case _ => None
  }

  function Watch(v: View, log: seq<Output>): Option<View> {
    if log == [] then Some(v)
    else
      var before := Watch(v, log[..|log| - 1]);
      if before.None? then None else Observe(before.value, log[|log| - 1])
  }

  lemma {:induction false} WatchAppend(v: View, a: seq<Output>, b: seq<Output>)
    ensures Watch(v, a + b) == if Watch(v, a).None? then None else Watch(Watch(v, a).value, b)
  {
    hide Observe;
    if b == [] {
      assert a + b == a;
    } else {
      var n := |b| - 1;
      assert (a + b)[..|a| + n] == a + b[..n];
      WatchAppend(v, a, b[..n]);
    }
  }

  lemma WatchOne(v: View, a: seq<Output>, o: Output)
    requires Watch(v, a).Some?
    ensures Watch(v, a + [o]) == Observe(Watch(v, a).value, o)
  {
    hide Observe;
    assert (a + [o])[..|a|] == a;
  }

  // ---------------------------------------------------------------------------
  // The receiver's view follows the assembler

  function Seen(a: Assembler): Option<View> {
    Watch(NOTHING_SEEN, a.sent)
  }

  /** The plan deltas of these text deltas, as far as a parser in this state has reported them. */
  predicate PlanSoFar(texts: seq<string>, parser: State, planDeltas: seq<string>) {
    var (s, atoms) := Run(INITIAL, Flatten(texts));
    parser == s && Flatten(planDeltas) == PlanChars(atoms)
  }

  /** The receiver sees the open items as the assembler holds them, and the plan deltas it got
      are those the plan parser has reported. */
  predicate Follows(a: Assembler) {
    && Seen(a).Some?
    && var v := Seen(a).value;
    && v.reasoning == a.reasoning && v.assistant == a.assistant
    && v.planDone.None? && v.ended == a.closed
    && a.assistant.Some? == a.parser.Some?
    && if a.assistant.Some? then PlanSoFar(a.assistant.value, a.parser.value, v.planDeltas)
       else v.planDeltas == []
  }

  lemma {:induction false} PlanDeltasSeen(v: View, deltas: seq<string>)
    requires v.assistant.Some? && v.planDone.None? && !v.ended
    ensures Watch(v, PlanDeltaEvents(deltas)) == Some(v.(planDeltas := v.planDeltas + deltas))
  {
    if deltas == [] {
      assert v.planDeltas + deltas == v.planDeltas;
    } else {
      var n := |deltas| - 1;
      PlanDeltasSeen(v, deltas[..n]);
      var all := PlanDeltaEvents(deltas);
      assert all[..n] == PlanDeltaEvents(deltas[..n]);
      assert v.planDeltas + deltas[..n] + [deltas[n]] == v.planDeltas + deltas;
    }
  }

  /** The deltas sent for some reports carry the plan text among them. */
  lemma PlanDeltasCarry(atoms: seq<Atom>)
    ensures Flatten(DeltaTexts(Coalesce(atoms))) == PlanChars(atoms)
  {
    DeltaTextsArePlanChars(Coalesce(atoms));
    CoalesceKeepsAtoms(atoms);
  }

  lemma PlanSoFarGrows(texts: seq<string>, parser: State, planDeltas: seq<string>, text: string)
    requires PlanSoFar(texts, parser, planDeltas)
    ensures var (s, atoms) := Run(parser, text);
            PlanSoFar(texts + [text], s, planDeltas + DeltaTexts(Coalesce(atoms)))
  {
    hide Run, PlanChars, DeltaTexts, Coalesce;
    var (s, atoms) := Run(parser, text);
    FlattenPush(texts, text);
    RunAppend(INITIAL, Flatten(texts), text);
    PlanCharsAppend(Run(INITIAL, Flatten(texts)).1, atoms);
    PlanDeltasCarry(atoms);
    FlattenAppend(planDeltas, DeltaTexts(Coalesce(atoms)));
  }

  lemma PlanSoFarEnds(texts: seq<string>, parser: State, planDeltas: seq<string>)
    requires PlanSoFar(texts, parser, planDeltas)
    ensures PlanReported(texts, planDeltas + DeltaTexts(Coalesce(FinishAtoms(parser))), ProposedPlan(Flatten(texts)))
  {
    hide Run, PlanChars, DeltaTexts, Coalesce, FinishAtoms, ProposedPlan;
    var rest := FinishAtoms(parser);
    RunIsLineAtoms(Flatten(texts));
    PlanCharsAppend(Run(INITIAL, Flatten(texts)).1, rest);
    PlanDeltasCarry(rest);
    FlattenAppend(planDeltas, DeltaTexts(Coalesce(rest)));
  }

  lemma NoTextsNoPlan()
    ensures PlanSoFar([], INITIAL, [])
  {
  }

  /** An open message, seen by the receiver, with the plan deltas of its text so far. */
  predicate FollowsOpen(o: Assembler) {
    && Seen(o).Some? && o.assistant.Some?
    && var v := Seen(o).value;
    && v.reasoning == o.reasoning && v.assistant == o.assistant
    && v.planDone.None? && !v.ended && !o.closed
    && PlanSoFar(o.assistant.value, ParserOf(o), v.planDeltas)
  }

  lemma OpenAssistantFollows(a: Assembler)
    requires Follows(a) && !a.closed
    ensures FollowsOpen(OpenAssistant(a))
  {
    hide Run, PlanSoFar;
    if a.assistant.None? {
      WatchOne(NOTHING_SEEN, a.sent, Ok(OutputItemAdded(AssistantMessage([]))));
      NoTextsNoPlan();
    }
  }

  lemma AppendAssistantFollows(a: Assembler, text: string)
    requires Follows(a) && !a.closed
    ensures Follows(AppendAssistant(a, text)) && !AppendAssistant(a, text).closed
  {
    hide Run, PlanSoFar, DeltaTexts, Coalesce, PlanDeltaEvents, OpenAssistant;
    OpenAssistantFollows(a);
    var o := OpenAssistant(a);
    var v := Seen(o).value;
    var (s, atoms) := Run(ParserOf(o), text);
    var deltas := DeltaTexts(Coalesce(atoms));
    PlanSoFarGrows(o.assistant.value, ParserOf(o), v.planDeltas, text);
    PlanDeltasSeen(v, deltas);
    WatchAppend(NOTHING_SEEN, o.sent, PlanDeltaEvents(deltas));
    WatchOne(NOTHING_SEEN, o.sent + PlanDeltaEvents(deltas), Ok(OutputTextDelta(text)));
  }

  lemma {:induction false} AppendAssistantAllFollows(a: Assembler, texts: seq<string>)
    requires Follows(a) && !a.closed
    ensures Follows(AppendAssistantAll(a, texts)) && !AppendAssistantAll(a, texts).closed
  {
    hide AppendAssistant, Follows;
    if texts != [] {
      var n := |texts| - 1;
      AppendAssistantAllFollows(a, texts[..n]);
      AppendAssistantFollows(AppendAssistantAll(a, texts[..n]), texts[n]);
    }
  }

  lemma AppendReasoningFollows(a: Assembler, text: Option<string>)
    requires Follows(a) && !a.closed
    ensures Follows(AppendReasoning(a, text)) && !AppendReasoning(a, text).closed
  {
    hide PlanSoFar, OpenReasoning;
    if text.Some? {
      var o := OpenReasoning(a);
      OpenReasoningFollows(a);
      WatchOne(NOTHING_SEEN, o.sent, Ok(ReasoningContentDelta(text.value, |o.reasoning.value|)));
    }
  }

  lemma OpenReasoningFollows(a: Assembler)
    requires Follows(a) && !a.closed
    ensures var o := OpenReasoning(a); Follows(o) && !o.closed && o.reasoning.Some?
  {
    hide PlanSoFar;
    if a.reasoning.None? {
      WatchOne(NOTHING_SEEN, a.sent, Ok(OutputItemAdded(ReasoningItem([]))));
    }
  }

  lemma CloseReasoningFollows(a: Assembler)
    requires Follows(a) && !a.closed
    ensures Follows(CloseReasoning(a)) && !CloseReasoning(a).closed && CloseReasoning(a).reasoning.None?
  {
    hide PlanSoFar;
    if a.reasoning.Some? {
      WatchOne(NOTHING_SEEN, a.sent, Ok(OutputItemDone(ReasoningItem(a.reasoning.value))));
    }
  }

  lemma CloseAssistantFollows(a: Assembler)
    requires Follows(a) && !a.closed && a.reasoning.None?
    ensures Follows(CloseAssistant(a)) && !CloseAssistant(a).closed
    ensures CloseAssistant(a).assistant.None? && CloseAssistant(a).reasoning == a.reasoning
  {
    hide PlanSoFar, PlanReported, DeltaTexts, Coalesce, FinishAtoms, ProposedPlan, PlanDeltaEvents;
    if a.assistant.Some? {
      var v := Seen(a).value;
      var texts := a.assistant.value;
      var deltas := DeltaTexts(Coalesce(FinishAtoms(a.parser.value)));
      PlanSoFarEnds(texts, a.parser.value, v.planDeltas);
      PlanDeltasSeen(v, deltas);
      WatchAppend(NOTHING_SEEN, a.sent, PlanDeltaEvents(deltas));
      var reported := a.sent + PlanDeltaEvents(deltas);
      var plan := ProposedPlan(Flatten(texts));
      if plan.Some? {
        WatchOne(NOTHING_SEEN, reported, Ok(ProposedPlanDone(plan.value)));
        WatchOne(NOTHING_SEEN, reported + [Ok(ProposedPlanDone(plan.value))],
                 Ok(OutputItemDone(AssistantMessage(texts))));
      } else {
        assert reported + [] == reported;
        WatchOne(NOTHING_SEEN, reported, Ok(OutputItemDone(AssistantMessage(texts))));
      }
    }
  }

  lemma CompleteFollows(a: Assembler)
    requires Follows(a) && !a.closed
    ensures Follows(FlushAndComplete(a)) && FlushAndComplete(a).closed
  {
    hide PlanSoFar, CloseReasoning, CloseAssistant;
    CloseReasoningFollows(a);
    CloseAssistantFollows(CloseReasoning(a));
    var c := CloseAssistant(CloseReasoning(a));
    WatchOne(NOTHING_SEEN, c.sent, Ok(Completed([], a.usage)));
  }

  lemma FailFollows(a: Assembler, error: ApiError)
    requires Follows(a) && !a.closed
    ensures Follows(Fail(a, error)) && Fail(a, error).closed
  {
    hide PlanSoFar;
    WatchOne(NOTHING_SEEN, a.sent, Err(error));
  }

  lemma {:induction false} CallsSeen(v: View, items: seq<TranscriptItem>)
    requires !v.ended && forall i :: 0 <= i < |items| ==> items[i].ToolCall? && items[i].payload.JsonArguments?
    ensures Watch(v, DoneEvents(items)) == Some(v)
  {
    if items != [] {
      var n := |items| - 1;
      CallsSeen(v, items[..n]);
      assert DoneEvents(items)[..n] == DoneEvents(items[..n]);
    }
  }

  lemma {:induction false} CallItemsAreCalls(slots: map<nat, Slot>, order: seq<nat>)
    ensures forall i :: 0 <= i < |CallItems(slots, order)| ==>
              CallItems(slots, order)[i].ToolCall? && CallItems(slots, order)[i].payload.JsonArguments?
  {
    if order != [] {
      CallItemsAreCalls(slots, order[..|order| - 1]);
    }
  }

  lemma FinishFollows(a: Assembler, finishReason: Option<string>)
    requires Follows(a) && !a.closed
    ensures Follows(ApplyFinish(a, finishReason).0)
  {
    hide PlanSoFar, CloseReasoning, CloseAssistant, CallItems, DoneEvents, Fail;
    CloseReasoningFollows(a);
    CloseAssistantFollows(CloseReasoning(a));
    FailFollows(a, ContextWindowExceeded);
    var c := CloseAssistant(CloseReasoning(a));
    CallItemsAreCalls(c.calls.slots, c.calls.order);
    CallsSeen(Seen(c).value, CallItems(c.calls.slots, c.calls.order));
    WatchAppend(NOTHING_SEEN, c.sent, DoneEvents(CallItems(c.calls.slots, c.calls.order)));
  }

  lemma ContentFollows(a: Assembler, choice: Choice)
    requires Follows(a) && !a.closed
    ensures Follows(ApplyContent(a, choice)) && !ApplyContent(a, choice).closed
  {
    hide AppendReasoning, AppendAssistantAll, AddAll, PlanSoFar;
    var d := a;
    if choice.delta.Some? {
      var delta := choice.delta.value;
      AppendReasoningFollows(a, ReasoningTextOf(delta.reasoning));
      var r := AppendReasoning(a, ReasoningTextOf(delta.reasoning));
      AppendAssistantAllFollows(r, StreamedTexts(delta.content));
      d := ApplyDelta(a, delta);
    }
    if choice.message.Some? {
      AppendReasoningFollows(d, ReasoningTextOf(choice.message.value.reasoning));
    }
  }

  lemma {:induction false} ChoicesFollow(a: Assembler, choices: seq<Choice>)
    requires Follows(a) && !a.closed
    ensures Follows(ApplyChoices(a, choices).0)
  {
    hide Follows, Fail, ApplyContent, ApplyFinish;
    if choices != [] {
      var n := |choices| - 1;
      ChoicesFollow(a, choices[..n]);
      var b := ApplyChoices(a, choices[..n]).0;
      if !b.closed {
        var refusal := RefusalError(choices[n]);
        if refusal.Some? {
          FailFollows(b, refusal.value);
        } else {
          ContentFollows(b, choices[n]);
          FinishFollows(ApplyContent(b, choices[n]), choices[n].finishReason);
        }
      }
    }
  }

  lemma UsageFollows(a: Assembler, usage: Option<TokenUsage>, pending: bool)
    requires Follows(a)
    ensures Follows(a.(usage := usage)) && Follows(a.(pending := pending))
  {
    hide PlanSoFar;
  }

  lemma PollFollows(a: Assembler, poll: Poll)
    requires Follows(a) && !a.closed
    ensures Follows(ApplyPoll(a, poll))
  {
    hide Follows, Fail, FlushAndComplete, ApplyChoices;
    match poll
    case TransportError(message) => CompleteFollows(a); FailFollows(a, StreamError(message));
    case TimedOut => CompleteFollows(a); FailFollows(a, StreamError(IDLE_TIMEOUT));
    case EndOfStream => CompleteFollows(a);
    case Data(DoneSentinel) => CompleteFollows(a);
    case Data(ChunkData(chunk)) =>
      UsageFollows(a, chunk.usage, a.pending);
      var u := if chunk.usage.Some? then a.(usage := chunk.usage) else a;
      CompleteFollows(u);
      if chunk.choices.Some? {
        ChoicesFollow(u, chunk.choices.value);
        var c := ApplyChoices(u, chunk.choices.value).0;
        if !c.closed {
          CompleteFollows(c);
          UsageFollows(c, c.usage, true);
        }
      }
    case _ =>
  }

  lemma {:induction false} PollsFollow(polls: seq<Poll>)
    ensures Follows(ApplyPolls(START, polls))
  {
    if polls == [] {
      assert Watch(NOTHING_SEEN, []) == Some(NOTHING_SEEN);
    } else {
      hide Follows, ApplyPoll;
      var n := |polls| - 1;
      PollsFollow(polls[..n]);
      var b := ApplyPolls(START, polls[..n]);
      if !b.closed {
        PollFollows(b, polls[n]);
      }
    }
  }

  /** Every run sends a well-formed stream that ends. */
  lemma EveryRunIsWellFormed(polls: seq<Poll>)
    ensures Seen(ProcessAll(polls)).Some? && Seen(ProcessAll(polls)).value.ended
  {
    hide ApplyPolls, FlushAndComplete;
    PollsFollow(polls);
    var a := ApplyPolls(START, polls);
    if !a.closed {
      CompleteFollows(a);
    }
  }

  /** The stream ended with Completed, not with an error. */
  predicate Completes(log: seq<Output>) {
    log != [] && log[|log| - 1].Ok?
  }

  predicate IsTerminal(o: Output) {
    o.Err? || o.value.Completed?
  }

  lemma {:induction false} EndedOnlyByTerminal(log: seq<Output>)
    requires Watch(NOTHING_SEEN, log).Some?
    ensures Watch(NOTHING_SEEN, log).value.ended <==> log != [] && IsTerminal(log[|log| - 1])
    ensures forall i :: 0 <= i < |log| - 1 ==> !IsTerminal(log[i])
  {
    if log != [] {
      var front := log[..|log| - 1];
      EndedOnlyByTerminal(front);
      assert forall i :: 0 <= i < |front| ==> log[i] == front[i];
    }
  }

  /** Completed or Err comes exactly once, as the last event. */
  lemma OneTerminalAndLast(polls: seq<Poll>)
    ensures var log := ProcessAll(polls).sent;
            log != [] && forall i :: 0 <= i < |log| ==> (IsTerminal(log[i]) <==> i == |log| - 1)
  {
    hide ProcessAll, Watch;
    EveryRunIsWellFormed(polls);
    EndedOnlyByTerminal(ProcessAll(polls).sent);
  }

  /** A message with a single plan block streams its plan: the deltas join to the final text. */
  lemma SinglePlanStreams(texts: seq<string>, planDeltas: seq<string>, planDone: Option<string>,
                          before: seq<Atom>, block: seq<Atom>)
    requires PlanReported(texts, planDeltas, planDone)
    requires LineAtoms(false, Flatten(texts)) == before + [StartAtom] + block
    requires StartAtom !in before && StartAtom !in block
    ensures planDone == Some(Flatten(planDeltas))
  {
    hide LineAtoms, LastPlan, PlanChars;
    MeaningIsBalanced(false, Flatten(texts));
    SingleBlockIsWholePlan(before, block);
  }

  // ---------------------------------------------------------------------------
  // The plans of a run

  predicate BeginsMessage(o: Output) {
    o.Ok? && o.value.OutputItemAdded? && o.value.item.Message?
  }

  /** The plan deltas since the last message began. */
  function PlanDeltasSince(log: seq<Output>): seq<string> {
    if log == [] then []
    else
      var o := log[|log| - 1];
      if BeginsMessage(o) then []
      else PlanDeltasSince(log[..|log| - 1]) + if o.Ok? && o.value.ProposedPlanDelta? then [o.value.delta] else []
  }

  /** The plan reported since the last message began. */
  function PlanSince(log: seq<Output>): Option<string> {
    if log == [] then None
    else
      var o := log[|log| - 1];
      if BeginsMessage(o) then None
      else if o.Ok? && o.value.ProposedPlanDone? then Some(o.value.text)
      else PlanSince(log[..|log| - 1])
  }

  /** What the receiver holds of a plan is what the log says since the message began. */
  lemma {:induction false} ViewHoldsPlans(log: seq<Output>)
    requires Watch(NOTHING_SEEN, log).Some?
    ensures var v := Watch(NOTHING_SEEN, log).value;
            if v.assistant.Some? then v.planDeltas == PlanDeltasSince(log) && v.planDone == PlanSince(log)
            else v.planDeltas == [] && v.planDone.None?
  {
    if log != [] {
      hide PlanReported;
      var front := log[..|log| - 1];
      ViewHoldsPlans(front);
      assert PlanDeltasSince(front) + [] == PlanDeltasSince(front);
    }
  }

  lemma WatchedPrefix(log: seq<Output>, i: nat)
    requires i < |log| && Watch(NOTHING_SEEN, log).Some?
    ensures Watch(NOTHING_SEEN, log[..i]).Some? && Observe(Watch(NOTHING_SEEN, log[..i]).value, log[i]).Some?
  {
    hide Observe;
    assert log == log[..i + 1] + log[i + 1..];
    WatchAppend(NOTHING_SEEN, log[..i + 1], log[i + 1..]);
    assert log[..i + 1] == log[..i] + [log[i]];
    WatchAppend(NOTHING_SEEN, log[..i], [log[i]]);
    assert (log[..i] + [log[i]])[..i] == log[..i];
  }

  lemma FinishedReports(v: View, o: Output)
    requires Observe(v, o).Some? && o.Ok? && o.value.OutputItemDone? && o.value.item.Message?
    ensures v.assistant.Some? && o.value.item == AssistantMessage(v.assistant.value)
    ensures PlanReported(v.assistant.value, v.planDeltas, v.planDone)
  {
    hide PlanReported;
  }

  /** A text with exactly one plan block. */
  ghost predicate HasOneBlock(text: string) {
    exists before, block: seq<Atom> ::
      LineAtoms(false, text) == before + [StartAtom] + block && StartAtom !in before && StartAtom !in block
  }

  /** On every run, for every message that is finished: the plan reported since it began is the
      last plan block of its text, the plan deltas carry the text inside its plan blocks, and with
      a single block they join to that plan. */
  lemma MessagesReportPlans(polls: seq<Poll>, i: nat)
    requires i < |ProcessAll(polls).sent|
    requires var o := ProcessAll(polls).sent[i];
             o.Ok? && o.value.OutputItemDone? && o.value.item.Message?
    ensures var before := ProcessAll(polls).sent[..i];
            var text := JoinOutputText(ProcessAll(polls).sent[i].value.item.content);
            && PlanSince(before) == ProposedPlan(text)
            && Flatten(PlanDeltasSince(before)) == PlanChars(LineAtoms(false, text))
            && (HasOneBlock(text) ==> PlanSince(before) == Some(Flatten(PlanDeltasSince(before))))
  {
    hide ProcessAll, Watch, Observe, LineAtoms, PlanSince, PlanDeltasSince, PlanChars, ProposedPlan, JoinOutputText;
    var log := ProcessAll(polls).sent;
    EveryRunIsWellFormed(polls);
    WatchedPrefix(log, i);
    ViewHoldsPlans(log[..i]);
    var v := Watch(NOTHING_SEEN, log[..i]).value;
    FinishedReports(v, log[i]);
    var texts := v.assistant.value;
    JoinOutputTexts(texts);
    if HasOneBlock(Flatten(texts)) {
      var b, c :| LineAtoms(false, Flatten(texts)) == b + [StartAtom] + c && StartAtom !in b && StartAtom !in c;
      SinglePlanStreams(texts, v.planDeltas, v.planDone, b, c);
    }
  }
}
