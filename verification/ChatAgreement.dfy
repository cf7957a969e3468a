/** However a response is cut into deltas, streaming it finishes the same items as parsing it
    whole (src/llm/src/api/sse/chat.rs:240-417, 483-634). */
module ChatAgreement {
  import opened Basics
  import opened Transcript
  import opened PlanText
  import opened ToolCallTable
  import opened ChatWire
  import opened ChatAssembler
  import opened CompletedChat

  // ---------------------------------------------------------------------------
  // Tool calls cut into fragments

  /** Every fragment says which call it belongs to, and repeats no other call's id. */
  predicate Labelled(ds: seq<ToolDelta>, calls: seq<WholeCall>) {
    forall i :: 0 <= i < |ds| ==>
      && ds[i].index.Some? && ds[i].index.value < |calls|
      && (ds[i].id.None? || ds[i].id == calls[ds[i].index.value].id)
  }

  predicate DistinctIds(calls: seq<WholeCall>) {
    forall i, j :: 0 <= i < j < |calls| && calls[i].id.Some? ==> calls[i].id != calls[j].id
  }

  function Indexes(ds: seq<ToolDelta>): (r: seq<nat>)
    ensures |r| == |ds|
  {
    seq(|ds|, i requires 0 <= i < |ds| => if ds[i].index.Some? then ds[i].index.value else 0)
  }

  /** The fragments that name call `k`. */
  function FragmentsOf(ds: seq<ToolDelta>, k: nat): seq<ToolDelta> {
    Routed(ds, Indexes(ds), k)
  }

  /** These fragments make up this call: its id and its whole name come at least once, nothing
      else comes in their place, and the argument fragments join to its arguments. */
  predicate MakeUp(fragments: seq<ToolDelta>, call: WholeCall) {
    && call.func.Some? && call.func.value.name.Some? && call.func.value.name.value != []
    && Yields(Ids(fragments), call.id)
    && Yields(Names(fragments), call.func.value.name)
    && Flatten(Arguments(fragments)) == OrEmpty(call.func.value.arguments)
  }

  predicate Yields(options: seq<Option<string>>, value: Option<string>) {
    && (forall i :: 0 <= i < |options| ==> options[i].None? || options[i] == value)
    && (value.Some? ==> value in options)
  }

  function UpTo(n: nat): seq<nat> {
    seq(n, i => i)
  }

  predicate CutCalls(ds: seq<ToolDelta>, calls: seq<WholeCall>) {
    && Labelled(ds, calls) && DistinctIds(calls)
    && FirstSeen(Indexes(ds)) == UpTo(|calls|)
    && forall k :: 0 <= k < |calls| ==> MakeUp(FragmentsOf(ds, k), calls[k])
  }

  lemma LabelledRoute(next: nat, front: seq<ToolDelta>, d: ToolDelta, calls: seq<WholeCall>)
    requires Labelled(front, calls) && DistinctIds(calls)
    requires d.index.Some? && d.index.value < |calls| && (d.id.None? || d.id == calls[d.index.value].id)
    requires Routes(EmptyTable(next), front) == Indexes(front)
    ensures Route(AddAll(EmptyTable(next), front), d) == d.index.value
  {
    hide AddAll, Routes, DistinctIds;
    var t := AddAll(EmptyTable(next), front);
    if d.id.Some? {
      BatchRemembersId(next, front, d.id.value);
      if d.id.value in t.byId {
        var i :| FirstWithId(front, Indexes(front), d.id.value, i, t.byId[d.id.value]);
        SameIdSameCall(calls, d.index.value, front[i].index.value);
      }
    }
  }

  lemma SameIdSameCall(calls: seq<WholeCall>, i: nat, j: nat)
    requires DistinctIds(calls)
    requires i < |calls| && j < |calls| && calls[i].id.Some? && calls[i].id == calls[j].id
    ensures i == j
  {
  }

  lemma {:induction false} RoutesAreIndexes(next: nat, ds: seq<ToolDelta>, calls: seq<WholeCall>)
    requires Labelled(ds, calls) && DistinctIds(calls)
    ensures Routes(EmptyTable(next), ds) == Indexes(ds)
  {
    hide Route, AddAll, DistinctIds;
    if ds != [] {
      var n := |ds| - 1;
      var front, d := ds[..n], ds[n];
      RoutesAreIndexes(next, front, calls);
      LabelledRoute(next, front, d, calls);
      assert Indexes(ds) == Indexes(front) + [d.index.value];
    }
  }

  lemma {:induction false} YieldsFirst(options: seq<Option<string>>, value: Option<string>)
    requires Yields(options, value)
    ensures FirstSome(options) == value
  {
    if options != [] {
      var n := |options| - 1;
      var front := options[..n];
      assert forall i :: 0 <= i < n ==> front[i] == options[i];
      if value in front {
        YieldsFirst(front, value);
      } else {
        assert forall i :: 0 <= i < n ==> front[i].None?;
        YieldsFirst(front, None);
      }
    }
  }

  lemma MadeUpSlot(fragments: seq<ToolDelta>, call: WholeCall)
    requires MakeUp(fragments, call)
    ensures Assembled(fragments) == Slot(call.id, call.func.value.name, OrEmpty(call.func.value.arguments))
  {
    YieldsFirst(Ids(fragments), call.id);
    YieldsFirst(Names(fragments), call.func.value.name);
  }

  lemma CutSlot(next: nat, ds: seq<ToolDelta>, calls: seq<WholeCall>, k: nat)
    requires CutCalls(ds, calls) && k < |calls|
    ensures var slots := AddAll(EmptyTable(next), ds).slots;
            k in slots && WholeCallItem(k, calls[k]).Ok? && CallItem(k, slots[k]) == [WholeCallItem(k, calls[k]).value]
  {
    hide AddAll, Assembled, Labelled;
    RoutesAreIndexes(next, ds, calls);
    BatchSlot(next, ds, k);
    MadeUpSlot(FragmentsOf(ds, k), calls[k]);
  }

  lemma {:induction false} CutItems(next: nat, ds: seq<ToolDelta>, calls: seq<WholeCall>, m: nat)
    requires CutCalls(ds, calls) && m <= |calls|
    ensures WholeCallItems(calls[..m]) == Ok(CallItems(AddAll(EmptyTable(next), ds).slots, UpTo(m)))
  {
    hide AddAll, CutCalls, CallItem, WholeCallItem;
    if 0 < m {
      var n := m - 1;
      assert calls[..m][..n] == calls[..n];
      assert UpTo(m)[..n] == UpTo(n);
      CutItems(next, ds, calls, n);
      CutSlot(next, ds, calls, n);
    }
  }

  /** The calls rebuilt from fragments are the calls of the whole message, in order. */
  lemma CutCallsAgree(next: nat, ds: seq<ToolDelta>, calls: seq<WholeCall>)
    requires CutCalls(ds, calls)
    ensures var t := AddAll(EmptyTable(next), ds);
            WholeCallItems(calls) == Ok(CallItems(t.slots, t.order))
  {
    hide AddAll, Labelled, DistinctIds, MakeUp, CallItems, WholeCallItems, FirstSeen;
    RoutesAreIndexes(next, ds, calls);
    BatchOrder(next, ds);
    CutItems(next, ds, calls, |calls|);
    assert calls[..|calls|] == calls;
  }

  // ---------------------------------------------------------------------------
  // Reading the stream up to its finish

  /** Data that carries at most one choice, and only content. */
  predicate IsContentPoll(p: Poll) {
    match p
    case Data(BlankData) => true
    case Data(NotJson) => true
    case Data(ChunkData(chunk)) =>
      chunk.choices.None? || chunk.choices.value == []
      || (|chunk.choices.value| == 1 && IsContentChoice(chunk.choices.value[0]))
    case _ => false
  }

  predicate IsContentChoice(c: Choice) {
    && c.message.None? && RefusalError(c).None?
    && c.finishReason != Some("stop") && c.finishReason != Some("length") && c.finishReason != Some("tool_calls")
  }

  function DeltaOf(c: Choice): seq<Delta> {
    if c.delta.Some? then [c.delta.value] else []
  }

  function PollDeltas(p: Poll): seq<Delta> {
    if p.Data? && p.data.ChunkData? && p.data.chunk.choices.Some? && p.data.chunk.choices.value != []
    then DeltaOf(p.data.chunk.choices.value[0]) else []
  }

  function AllDeltas(polls: seq<Poll>): seq<Delta> {
    if polls == [] then [] else AllDeltas(polls[..|polls| - 1]) + PollDeltas(polls[|polls| - 1])
  }

  function ReasoningTextsIn(deltas: seq<Delta>): seq<string> {
    if deltas == [] then []
    else
      var n := |deltas| - 1;
      var text := ReasoningTextOf(deltas[n].reasoning);
      ReasoningTextsIn(deltas[..n]) + if text.Some? then [text.value] else []
  }

  function ContentTextsIn(deltas: seq<Delta>): seq<string> {
    if deltas == [] then []
    else ContentTextsIn(deltas[..|deltas| - 1]) + StreamedTexts(deltas[|deltas| - 1].content)
  }

  function ToolDeltasIn(deltas: seq<Delta>): seq<ToolDelta> {
    if deltas == [] then []
    else ToolDeltasIn(deltas[..|deltas| - 1]) + ToolDeltas(deltas[|deltas| - 1])
  }

  function DoneItems(log: seq<Output>): seq<TranscriptItem> {
    if log == [] then []
    else
      var n := |log| - 1;
      DoneItems(log[..n]) + if log[n].Ok? && log[n].value.OutputItemDone? then [log[n].value.item] else []
  }

  lemma {:induction false} DoneItemsAppend(a: seq<Output>, b: seq<Output>)
    ensures DoneItems(a + b) == DoneItems(a) + DoneItems(b)
  {
    if b == [] {
      assert a + b == a;
    } else {
      var n := |b| - 1;
      assert (a + b)[..|a| + n] == a + b[..n];
      DoneItemsAppend(a, b[..n]);
      Associative(DoneItems(a), DoneItems(b[..n]),
                  if b[n].Ok? && b[n].value.OutputItemDone? then [b[n].value.item] else []);
    }
  }

  lemma DoneItemsOne(a: seq<Output>, o: Output)
    ensures DoneItems(a + [o]) == DoneItems(a) + if o.Ok? && o.value.OutputItemDone? then [o.value.item] else []
  {
    assert (a + [o])[..|a|] == a;
  }

  lemma {:induction false} NothingDone(events: seq<Output>)
    requires forall i :: 0 <= i < |events| ==> events[i].Ok? && !events[i].value.OutputItemDone?
    ensures DoneItems(events) == []
  {
    if events != [] {
      NothingDone(events[..|events| - 1]);
    }
  }

  lemma {:induction false} AllDone(items: seq<TranscriptItem>)
    ensures DoneItems(DoneEvents(items)) == items
  {
    if items != [] {
      var n := |items| - 1;
      AllDone(items[..n]);
      assert DoneEvents(items)[..n] == DoneEvents(items[..n]);
    }
  }

  /** The assembler has collected these texts and fragments and finished these items. */
  predicate Collected(a: Assembler, reasoning: seq<string>, content: seq<string>, tools: seq<ToolDelta>,
                      done: seq<TranscriptItem>) {
    && a.reasoning == Opened(reasoning) && a.assistant == Opened(content)
    && a.calls == AddAll(EmptyTable(0), tools)
    && DoneItems(a.sent) == done && !a.closed && !a.pending
  }

  function Opened(texts: seq<string>): Option<seq<string>> {
    if texts == [] then None else Some(texts)
  }

  lemma CollectReasoning(a: Assembler, reasoning: seq<string>, content: seq<string>, tools: seq<ToolDelta>,
                         text: Option<string>)
    requires Collected(a, reasoning, content, tools, [])
    ensures Collected(AppendReasoning(a, text), reasoning + (if text.Some? then [text.value] else []), content, tools,
                      [])
  {
    if text.Some? {
      var o := OpenReasoning(a);
      if a.reasoning.None? {
        DoneItemsOne(a.sent, Ok(OutputItemAdded(ReasoningItem([]))));
      }
      DoneItemsOne(o.sent, Ok(ReasoningContentDelta(text.value, |o.reasoning.value|)));
    } else {
      assert reasoning + [] == reasoning;
    }
  }

  lemma CollectText(a: Assembler, reasoning: seq<string>, content: seq<string>, tools: seq<ToolDelta>, text: string)
    requires Collected(a, reasoning, content, tools, [])
    ensures Collected(AppendAssistant(a, text), reasoning, content + [text], tools, [])
  {
    hide Run, AddAll, PlanDeltasOf;
    var o := OpenAssistant(a);
    if a.assistant.None? {
      DoneItemsOne(a.sent, Ok(OutputItemAdded(AssistantMessage([]))));
    }
    var deltas := PlanDeltasOf(Run(ParserOf(o), text).1);
    PlanDeltasAreNotDone(Run(ParserOf(o), text).1);
    DoneItemsAppend(o.sent, deltas);
    DoneItemsOne(o.sent + deltas, Ok(OutputTextDelta(text)));
  }

  lemma PlanDeltasAreNotDone(atoms: seq<Atom>)
    ensures DoneItems(PlanDeltasOf(atoms)) == []
  {
    NothingDone(PlanDeltasOf(atoms));
  }

  lemma {:induction false} CollectTexts(a: Assembler, reasoning: seq<string>, content: seq<string>,
                                        tools: seq<ToolDelta>, texts: seq<string>)
    requires Collected(a, reasoning, content, tools, [])
    ensures Collected(AppendAssistantAll(a, texts), reasoning, content + texts, tools, [])
  {
    hide AppendAssistant, Collected;
    if texts == [] {
      assert content + texts == content;
    } else {
      var n := |texts| - 1;
      CollectTexts(a, reasoning, content, tools, texts[..n]);
      CollectText(AppendAssistantAll(a, texts[..n]), reasoning, content + texts[..n], tools, texts[n]);
      assert content + texts[..n] + [texts[n]] == content + texts;
    }
  }

  lemma {:induction false} AddAllAppend(t: Table, a: seq<ToolDelta>, b: seq<ToolDelta>)
    ensures AddAll(t, a + b) == AddAll(AddAll(t, a), b)
  {
    hide Add;
    if b == [] {
      assert a + b == a;
    } else {
      var n := |b| - 1;
      assert (a + b)[..|a| + n] == a + b[..n];
      AddAllAppend(t, a, b[..n]);
    }
  }

  lemma CollectDelta(a: Assembler, deltas: seq<Delta>, delta: Delta)
    requires Collected(a, ReasoningTextsIn(deltas), ContentTextsIn(deltas), ToolDeltasIn(deltas), [])
    ensures var all := deltas + [delta];
            Collected(ApplyDelta(a, delta), ReasoningTextsIn(all), ContentTextsIn(all), ToolDeltasIn(all), [])
  {
    hide AppendReasoning, AppendAssistantAll, AddAll, StreamedTexts, ReasoningTextOf;
    var text := ReasoningTextOf(delta.reasoning);
    var reasoning, content, tools := ReasoningTextsIn(deltas), ContentTextsIn(deltas), ToolDeltasIn(deltas);
    CollectReasoning(a, reasoning, content, tools, text);
    var r := AppendReasoning(a, text);
    CollectTexts(r, reasoning + (if text.Some? then [text.value] else []), content, tools,
                 StreamedTexts(delta.content));
    AddAllAppend(EmptyTable(0), tools, ToolDeltas(delta));
    assert (deltas + [delta])[..|deltas|] == deltas;
  }

  lemma CollectUsage(a: Assembler, reasoning: seq<string>, content: seq<string>, tools: seq<ToolDelta>,
                     usage: Option<TokenUsage>)
    requires Collected(a, reasoning, content, tools, [])
    ensures Collected(a.(usage := usage), reasoning, content, tools, [])
  {
    hide AddAll;
  }

  /** What a run has collected after these deltas. */
  predicate HasRead(a: Assembler, deltas: seq<Delta>) {
    Collected(a, ReasoningTextsIn(deltas), ContentTextsIn(deltas), ToolDeltasIn(deltas), [])
  }

  /** A choice without a message contributes its delta. */
  lemma ReadContent(a: Assembler, deltas: seq<Delta>, c: Choice)
    requires HasRead(a, deltas) && c.message.None?
    ensures HasRead(ApplyContent(a, c), deltas + DeltaOf(c))
  {
    hide Collected, ApplyDelta;
    if c.delta.Some? {
      CollectDelta(a, deltas, c.delta.value);
    } else {
      assert deltas + [] == deltas;
    }
  }

  lemma ReadPoll(a: Assembler, deltas: seq<Delta>, p: Poll)
    requires HasRead(a, deltas) && IsContentPoll(p)
    ensures HasRead(ApplyPoll(a, p), deltas + PollDeltas(p))
  {
    hide RefusalError, AddAll, ApplyContent, FlushAndComplete;
    assert deltas + [] == deltas;
    if p.data.ChunkData? {
      var chunk := p.data.chunk;
      var u := if chunk.usage.Some? then a.(usage := chunk.usage) else a;
      CollectUsage(a, ReasoningTextsIn(deltas), ContentTextsIn(deltas), ToolDeltasIn(deltas), chunk.usage);
      if chunk.choices.Some? && chunk.choices.value != [] {
        var choices := chunk.choices.value;
        assert choices[..0] == [];
        ReadContent(u, deltas, choices[0]);
        ReadIsOpen(ApplyContent(u, choices[0]), deltas + DeltaOf(choices[0]));
        assert ApplyChoices(u, choices) == (ApplyContent(u, choices[0]), false);
      }
    }
  }

  lemma ReadIsOpen(a: Assembler, deltas: seq<Delta>)
    requires HasRead(a, deltas)
    ensures !a.closed && !a.pending
  {
    hide AddAll;
  }

  lemma StartHasRead()
    ensures HasRead(START, [])
  {
    assert Collected(START, [], [], [], []);
  }

  lemma {:induction false} ReadPolls(polls: seq<Poll>)
    requires forall i :: 0 <= i < |polls| ==> IsContentPoll(polls[i])
    ensures HasRead(ApplyPolls(START, polls), AllDeltas(polls))
  {
    hide HasRead, ApplyPoll, IsContentPoll;
    if polls == [] {
      StartHasRead();
    } else {
      var n := |polls| - 1;
      ReadPolls(polls[..n]);
      ReadIsOpen(ApplyPolls(START, polls[..n]), AllDeltas(polls[..n]));
      ReadPoll(ApplyPolls(START, polls[..n]), AllDeltas(polls[..n]), polls[n]);
    }
  }

  // ---------------------------------------------------------------------------
  // The finish, and everything after it

  function OpenReasoningItems(texts: seq<string>): seq<TranscriptItem> {
    if texts == [] then [] else [ReasoningItem(texts)]
  }

  function OpenMessageItems(texts: seq<string>): seq<TranscriptItem> {
    if texts == [] then [] else [AssistantMessage(texts)]
  }

  /** Nothing is open, and the items sent so far are `done`. */
  predicate AllSent(a: Assembler, done: seq<TranscriptItem>) {
    a.reasoning.None? && a.assistant.None? && DoneItems(a.sent) == done
  }

  lemma CloseAssistantSends(a: Assembler, content: seq<string>)
    requires a.assistant == Opened(content)
    ensures DoneItems(CloseAssistant(a).sent) == DoneItems(a.sent) + OpenMessageItems(content)
  {
    hide PlanDeltasOf, FinishAtoms, PlanDoneEvent, DoneItems;
    var done := DoneItems(a.sent);
    assert done + [] == done;
    if a.assistant.Some? {
      var rest := if a.parser.Some? then PlanDeltasOf(FinishAtoms(a.parser.value)) else [];
      var plan := PlanDoneEvent(content);
      if a.parser.Some? { PlanDeltasAreNotDone(FinishAtoms(a.parser.value)); } else { NothingDone([]); }
      PlanDoneIsNotDone(content);
      DoneItemsAppend(a.sent, rest);
      DoneItemsAppend(a.sent + rest, plan);
      DoneItemsOne(a.sent + rest + plan, Ok(OutputItemDone(AssistantMessage(content))));
    }
  }

  lemma CloseSends(a: Assembler, reasoning: seq<string>, content: seq<string>)
    requires a.reasoning == Opened(reasoning) && a.assistant == Opened(content)
    requires DoneItems(a.sent) == []
    ensures AllSent(CloseAssistant(CloseReasoning(a)), OpenReasoningItems(reasoning) + OpenMessageItems(content))
  {
    hide CloseAssistant, DoneItems;
    ClosingKeepsTheRest(a);
    var r := CloseReasoning(a);
    if a.reasoning.Some? {
      DoneItemsOne(a.sent, Ok(OutputItemDone(ReasoningItem(reasoning))));
    }
    CloseAssistantSends(r, content);
  }

  lemma PlanDoneIsNotDone(texts: seq<string>)
    ensures DoneItems(PlanDoneEvent(texts)) == []
  {
    hide ProposedPlanText.ProposedPlan;
    NothingDone(PlanDoneEvent(texts));
  }

  lemma CompleteAddsNothing(a: Assembler, done: seq<TranscriptItem>)
    requires AllSent(a, done)
    ensures AllSent(FlushAndComplete(a), done) && FlushAndComplete(a).closed
  {
    DoneItemsOne(a.sent, Ok(Completed([], a.usage)));
  }

  /** Once the response has finished, no poll can change what was sent. */
  lemma TailAddsNothing(a: Assembler, done: seq<TranscriptItem>, poll: Poll)
    requires AllSent(a, done) && a.pending && !a.closed
    ensures var b := ApplyPoll(a, poll); AllSent(b, done) && (b.closed || b.pending)
  {
    hide FlushAndComplete, DoneItems;
    CompleteAddsNothing(a, done);
    if poll.Data? && poll.data.ChunkData? {
      CompleteAddsNothing(a.(usage := poll.data.chunk.usage), done);
    }
  }

  lemma {:induction false} TailsAddNothing(a: Assembler, done: seq<TranscriptItem>, polls: seq<Poll>)
    requires AllSent(a, done) && (a.closed || a.pending)
    ensures var b := ApplyPolls(a, polls); AllSent(b, done) && (b.closed || b.pending)
  {
    if polls != [] {
      hide ApplyPoll, AllSent;
      var n := |polls| - 1;
      TailsAddNothing(a, done, polls[..n]);
      var b := ApplyPolls(a, polls[..n]);
      if !b.closed {
        TailAddsNothing(b, done, polls[n]);
      }
    }
  }

  /** The chunk that finishes a response: one choice, whose finish reason is `stop` or `tool_calls`. */
  predicate IsFinishChunk(chunk: Chunk, reason: string) {
    && chunk.choices.Some? && |chunk.choices.value| == 1
    && chunk.choices.value[0].message.None? && RefusalError(chunk.choices.value[0]).None?
    && chunk.choices.value[0].finishReason == Some(reason)
    && (reason == "stop" || reason == "tool_calls")
  }

  function StreamedItems(deltas: seq<Delta>, reason: string): seq<TranscriptItem> {
    var calls := AddAll(EmptyTable(0), ToolDeltasIn(deltas));
    OpenReasoningItems(ReasoningTextsIn(deltas)) + OpenMessageItems(ContentTextsIn(deltas))
    + if reason == "tool_calls" then CallItems(calls.slots, calls.order) else []
  }

  lemma FinishSends(a: Assembler, deltas: seq<Delta>, reason: string)
    requires HasRead(a, deltas) && (reason == "stop" || reason == "tool_calls")
    ensures var (b, terminal) := ApplyFinish(a, Some(reason));
            AllSent(b, StreamedItems(deltas, reason)) && terminal && !b.closed && !b.pending
  {
    hide CloseAssistant, CloseReasoning, DoneEvents, CallItems, AddAll;
    CloseSends(a, ReasoningTextsIn(deltas), ContentTextsIn(deltas));
    ClosingKeepsTheRest(a);
    var c := CloseAssistant(CloseReasoning(a));
    var items := CallItems(c.calls.slots, c.calls.order);
    DoneItemsAppend(c.sent, DoneEvents(items));
    AllDone(items);
    var closed := OpenReasoningItems(ReasoningTextsIn(deltas)) + OpenMessageItems(ContentTextsIn(deltas));
    assert closed + [] == closed;
  }

  lemma FinishChunkSends(a: Assembler, deltas: seq<Delta>, chunk: Chunk, reason: string)
    requires HasRead(a, deltas) && IsFinishChunk(chunk, reason)
    ensures var b := ApplyPoll(a, Data(ChunkData(chunk)));
            AllSent(b, StreamedItems(deltas + DeltaOf(chunk.choices.value[0]), reason)) && (b.closed || b.pending)
  {
    hide RefusalError, AddAll, ApplyContent, ApplyFinish, FlushAndComplete, StreamedItems, DoneItems;
    var u := if chunk.usage.Some? then a.(usage := chunk.usage) else a;
    var choices := chunk.choices.value;
    var all := deltas + DeltaOf(choices[0]);
    CollectUsage(a, ReasoningTextsIn(deltas), ContentTextsIn(deltas), ToolDeltasIn(deltas), chunk.usage);
    assert choices[..0] == [];
    ReadContent(u, deltas, choices[0]);
    FinishSends(ApplyContent(u, choices[0]), all, reason);
    var (c, terminal) := ApplyFinish(ApplyContent(u, choices[0]), Some(reason));
    assert ApplyChoices(u, choices) == (c, true);
    CompleteAddsNothing(c, StreamedItems(all, reason));
  }

  lemma {:induction false} PollsAppend(a: Assembler, p: seq<Poll>, q: seq<Poll>)
    ensures ApplyPolls(a, p + q) == ApplyPolls(ApplyPolls(a, p), q)
  {
    hide ApplyPoll;
    if q == [] {
      assert p + q == p;
    } else {
      var n := |q| - 1;
      assert (p + q)[..|p| + n] == p + q[..n];
      PollsAppend(a, p, q[..n]);
    }
  }

  /** A run that reads content, then a finish chunk, then anything at all, finishes exactly the
      items its deltas make up. */
  lemma StreamSends(content: seq<Poll>, chunk: Chunk, reason: string, tail: seq<Poll>)
    requires forall i :: 0 <= i < |content| ==> IsContentPoll(content[i])
    requires IsFinishChunk(chunk, reason)
    ensures DoneItems(ProcessAll(content + [Data(ChunkData(chunk))] + tail).sent)
         == StreamedItems(AllDeltas(content) + DeltaOf(chunk.choices.value[0]), reason)
  {
    hide IsContentPoll, ApplyPoll, FlushAndComplete, StreamedItems, DoneItems, HasRead;
    var deltas := AllDeltas(content) + DeltaOf(chunk.choices.value[0]);
    var finish := [Data(ChunkData(chunk))];
    ReadPolls(content);
    var a := ApplyPolls(START, content);
    ReadIsOpen(a, AllDeltas(content));
    FinishChunkSends(a, AllDeltas(content), chunk, reason);
    assert finish[..0] == [];
    PollsAppend(START, content, finish);
    PollsAppend(START, content + finish, tail);
    var b := ApplyPolls(START, content + finish);
    TailsAddNothing(b, StreamedItems(deltas, reason), tail);
    CompleteAddsNothing(ApplyPolls(b, tail), StreamedItems(deltas, reason));
  }

  // ---------------------------------------------------------------------------
  // Agreement with the whole response

  /** An item with its text fragments joined. */
  function Joined(item: TranscriptItem): TranscriptItem {
    match item
    case Message(id, role, content, endTurn) => item.(content := [OutputText(JoinOutputText(content))])
    case Reasoning(_, _, Some(content), _) => item.(reasoning := Some([ReasoningText(JoinReasoning(content))]))
    case _ => item
  }

  function JoinReasoning(content: seq<ReasoningContent>): string {
    if content == [] then [] else content[0].text + JoinReasoning(content[1..])
  }

  lemma {:induction false} JoinReasoningTexts(texts: seq<string>)
    ensures JoinReasoning(ReasoningTexts(texts)) == Flatten(texts)
  {
    if texts != [] {
      JoinReasoningTexts(texts[1..]);
      assert ReasoningTexts(texts)[1..] == ReasoningTexts(texts[1..]);
    }
  }

  function JoinedItems(items: seq<TranscriptItem>): seq<TranscriptItem> {
    seq(|items|, i requires 0 <= i < |items| => Joined(items[i]))
  }

  /** These deltas are a cut of this message. */
  predicate CutMessage(deltas: seq<Delta>, message: ChatMessage, reason: string) {
    var reasoning, content, tools := ReasoningTextsIn(deltas), ContentTextsIn(deltas), ToolDeltasIn(deltas);
    var whole := ReasoningTextOf(message.reasoning);
    && (whole.Some? <==> reasoning != [])
    && (whole.Some? ==> Flatten(reasoning) == whole.value)
    && (HasContent(message) <==> content != [])
    && (HasContent(message) ==> Flatten(content) == Flatten(CompletedTexts(message.content.value)))
    && CutCalls(tools, OrEmpty(message.toolCalls))
    && (reason == "stop" ==> OrEmpty(message.toolCalls) == [])
  }

  lemma JoinedReasoning(a: seq<string>, b: seq<string>)
    requires Flatten(a) == Flatten(b)
    ensures Joined(ReasoningItem(a)) == Joined(ReasoningItem(b))
  {
    JoinReasoningTexts(a);
    JoinReasoningTexts(b);
  }

  lemma JoinedMessage(a: seq<string>, b: seq<string>)
    requires Flatten(a) == Flatten(b)
    ensures Joined(AssistantMessage(a)) == Joined(AssistantMessage(b))
  {
    JoinOutputTexts(a);
    JoinOutputTexts(b);
  }

  lemma CutItemsAgree(deltas: seq<Delta>, message: ChatMessage, reason: string)
    requires CutMessage(deltas, message, reason) && (reason == "stop" || reason == "tool_calls")
    ensures var calls := WholeCallItems(OrEmpty(message.toolCalls));
            && calls.Ok?
            && JoinedItems(StreamedItems(deltas, reason))
               == JoinedItems(ReasoningItems(message) + MessageItems(message) + calls.value)
  {
    hide CutCalls, AddAll, CallItems, Joined, ReasoningTextOf, CompletedTexts, WholeCallItems;
    var tools := ToolDeltasIn(deltas);
    CutCallsAgree(0, tools, OrEmpty(message.toolCalls));
    NoCalls();
    var whole := ReasoningTextOf(message.reasoning);
    if whole.Some? {
      FlattenOne(whole.value);
      JoinedReasoning(ReasoningTextsIn(deltas), [whole.value]);
    }
    if HasContent(message) {
      JoinedMessage(ContentTextsIn(deltas), CompletedTexts(message.content.value));
    }
    var calls := WholeCallItems(OrEmpty(message.toolCalls)).value;
    var r, m := OpenReasoningItems(ReasoningTextsIn(deltas)), OpenMessageItems(ContentTextsIn(deltas));
    assert StreamedItems(deltas, reason) == r + m + calls;
    assert JoinedItems(r) == JoinedItems(ReasoningItems(message));
    assert JoinedItems(m) == JoinedItems(MessageItems(message));
    JoinedAppend(r, m);
    JoinedAppend(r + m, calls);
    JoinedAppend(ReasoningItems(message), MessageItems(message));
    JoinedAppend(ReasoningItems(message) + MessageItems(message), calls);
  }

  lemma NoCalls()
    ensures WholeCallItems([]) == Ok([])
  {
  }

  lemma FlattenOne(text: string)
    ensures Flatten([text]) == text
  {
    assert Flatten<char>([]) == [];
  }

  lemma JoinedAppend(a: seq<TranscriptItem>, b: seq<TranscriptItem>)
    ensures JoinedItems(a + b) == JoinedItems(a) + JoinedItems(b)
  {
    hide Joined;
  }

  /** Streaming and whole parsing agree: however the message is cut into deltas and chunks, and
      whatever follows the finish, the finished items are those of the whole message once the
      text fragments are joined. */
  lemma StreamingAgreesWithWhole(content: seq<Poll>, chunk: Chunk, reason: string, tail: seq<Poll>,
                                 message: ChatMessage)
    requires forall i :: 0 <= i < |content| ==> IsContentPoll(content[i])
    requires IsFinishChunk(chunk, reason)
    requires CutMessage(AllDeltas(content) + DeltaOf(chunk.choices.value[0]), message, reason)
    requires RefusalError(Choice(Some(message), None, Some(reason))).None?
    ensures var streamed := DoneItems(ProcessAll(content + [Data(ChunkData(chunk))] + tail).sent);
            var whole := ChoicesItems([Choice(Some(message), None, Some(reason))]);
            whole.Ok? && JoinedItems(streamed) == JoinedItems(whole.value)
  {
    hide IsContentPoll, ProcessAll, StreamedItems, JoinedItems, CutMessage, RefusalError;
    StreamSends(content, chunk, reason, tail);
    CutItemsAgree(AllDeltas(content) + DeltaOf(chunk.choices.value[0]), message, reason);
    OneChoice(message, reason);
  }

  lemma OneChoice(message: ChatMessage, reason: string)
    requires reason == "stop" || reason == "tool_calls"
    requires RefusalError(Choice(Some(message), None, Some(reason))).None?
    requires WholeCallItems(OrEmpty(message.toolCalls)).Ok?
    ensures ChoicesItems([Choice(Some(message), None, Some(reason))])
         == Ok(ReasoningItems(message) + MessageItems(message) + WholeCallItems(OrEmpty(message.toolCalls)).value)
  {
    hide RefusalError, WholeCallItems, ReasoningItems, MessageItems;
    var choices := [Choice(Some(message), None, Some(reason))];
    assert choices[..0] == [];
    var items := ReasoningItems(message) + MessageItems(message) + WholeCallItems(OrEmpty(message.toolCalls)).value;
    assert [] + items == items;
  }
}
