/** The adapter keeps a single active handle.  Over a chat stream that is delivered as it was
    assembled (`show_raw_agent_reasoning`), every item is completed under its own handle exactly
    when no reasoning item and message are ever open together (src/llm/src/semantic.rs:571-599,
    src/llm/src/runtime_client.rs:263-268).  `AggregatedHandles` answers the same question for
    the default, aggregated delivery. */
module ItemHandles {
  import opened Basics
  import opened Transcript
  import opened ChatWire
  import opened ChatAssembler
  import opened ChatProtocol
  import opened SemanticEvents
  import opened ChatAgreement
  import ToolCallTable

  /** The handles of the open items as a receiver recorded them, whether all items completed so
      far had their own handle, and whether all of them had been started. */
  datatype Record = Record(
    handles: Handles, reasoning: Option<string>, message: Option<string>, matched: bool, started: bool)

  const NO_RECORD: Record := Record(Handles(None, 0), None, None, true, true)

  /** An item's own handle: the one it was started with, or, if it never was started, the one it
      suggests itself. */
  function OwnHandle(started: Option<string>, item: TranscriptItem): Option<string> {
    if started.Some? then started
    else match item
      case Message(id, _, _, _) => id
      case Reasoning(id, _, _, _) => Some(id)
      case _ => None
  }

  function RecordEvent(r: Record, e: ResponseEvent): Record {
    var (h, out) := Adapt(r.handles, e);
    var next := r.(handles := h);
    match e
    case OutputItemAdded(item) =>
      if out == [] || !out[0].ItemStarted? then next
      else if item.Reasoning? then next.(reasoning := Some(out[0].handle))
      else if item.Message? then next.(message := Some(out[0].handle))
      else next
    case OutputItemDone(item) =>
      if out == [] || !out[0].ItemCompleted? then next
      else if item.Reasoning? then
        next.(reasoning := None, matched := r.matched && OwnHandle(r.reasoning, item) == Some(out[0].handle),
              started := r.started && r.reasoning.Some?)
      else if item.Message? then
        next.(message := None, matched := r.matched && OwnHandle(r.message, item) == Some(out[0].handle),
              started := r.started && r.message.Some?)
      else next
    case _ => next
  }

  function RecordLog(log: seq<Output>): Record {
    if log == [] then NO_RECORD
    else
      var n := |log| - 1;
      if log[n].Err? then RecordLog(log[..n]) else RecordEvent(RecordLog(log[..n]), log[n].value)
  }

  predicate BothOpen(v: Option<View>) {
    v.Some? && v.value.reasoning.Some? && v.value.assistant.Some?
  }

  predicate NeverBothOpen(log: seq<Output>) {
    !BothOpen(Watch(NOTHING_SEEN, log)) && (log == [] || NeverBothOpen(log[..|log| - 1]))
  }

  predicate IsSyntheticBefore(handle: string, n: nat) {
    exists j :: 0 <= j < n && handle == Synthetic(j)
  }

  /** The record mirrors the view; the active handle is that of the one open item as long as
      items never overlapped, and after an overlap a mismatch has happened or is unavoidable. */
  predicate Mirrors(r: Record, v: View, apart: bool) {
    && r.reasoning.Some? == v.reasoning.Some? && r.message.Some? == v.assistant.Some?
    && (r.reasoning.Some? ==> r.reasoning.value == [])
    && (r.message.Some? ==> IsSyntheticBefore(r.message.value, r.handles.next))
    && if apart then
         && r.matched && !(r.reasoning.Some? && r.message.Some?)
         && r.handles.active == (if r.reasoning.Some? then r.reasoning else r.message)
       else !r.matched || (r.message.Some? && (r.reasoning.Some? || r.handles.active.None?))
  }

  lemma AddedItem(r: Record, v: View, apart: bool, item: TranscriptItem)
    requires Mirrors(r, v, apart) && Observe(v, Ok(OutputItemAdded(item))).Some?
    ensures var w := Observe(v, Ok(OutputItemAdded(item))).value;
            Mirrors(RecordEvent(r, OutputItemAdded(item)), w, apart && !BothOpen(Some(w)))
  {
    hide Synthetic;
    if item.Message? {
      assert IsSyntheticBefore(Synthetic(r.handles.next), r.handles.next + 1);
    } else if r.message.Some? {
      var j :| 0 <= j < r.handles.next && r.message.value == Synthetic(j);
      assert IsSyntheticBefore(r.message.value, r.handles.next);
    }
  }

  lemma DoneItem(r: Record, v: View, apart: bool, item: TranscriptItem)
    requires Mirrors(r, v, apart) && Observe(v, Ok(OutputItemDone(item))).Some?
    ensures var w := Observe(v, Ok(OutputItemDone(item))).value;
            Mirrors(RecordEvent(r, OutputItemDone(item)), w, apart && !BothOpen(Some(w)))
  {
    hide Synthetic, PlanReported;
    if item.Message? && !apart && r.matched {
      FreshDiffers(r.message.value, r.handles.next);
    }
  }

  lemma FreshDiffers(handle: string, n: nat)
    requires IsSyntheticBefore(handle, n)
    ensures handle != Synthetic(n)
  {
    hide Synthetic;
    var j :| 0 <= j < n && handle == Synthetic(j);
    if handle == Synthetic(n) {
      SyntheticInjective(j, n);
    }
  }

  lemma OtherEvent(r: Record, v: View, apart: bool, e: ResponseEvent)
    requires Mirrors(r, v, apart) && Observe(v, Ok(e)).Some?
    requires !e.OutputItemAdded? && !e.OutputItemDone?
    ensures var w := Observe(v, Ok(e)).value;
            Mirrors(RecordEvent(r, e), w, apart && !BothOpen(Some(w)))
  {
    hide IsSyntheticBefore, PlanReported;
  }

  lemma {:induction false} RecordMirrors(log: seq<Output>)
    requires Watch(NOTHING_SEEN, log).Some?
    requires forall i :: 0 <= i < |log| ==> log[i].Ok?
    ensures Mirrors(RecordLog(log), Watch(NOTHING_SEEN, log).value, NeverBothOpen(log))
  {
    if log != [] {
      hide RecordEvent, Observe, Mirrors;
      var n := |log| - 1;
      RecordMirrors(log[..n]);
      var r, v, apart := RecordLog(log[..n]), Watch(NOTHING_SEEN, log[..n]).value, NeverBothOpen(log[..n]);
      var e := log[n].value;
      if e.OutputItemAdded? {
        AddedItem(r, v, apart, e.item);
      } else if e.OutputItemDone? {
        DoneItem(r, v, apart, e.item);
      } else {
        OtherEvent(r, v, apart, e);
      }
    }
  }

  /** The exact condition for raw delivery: handles match over a completed stream iff items never
      overlap. */
  lemma HandlesMatchIffNeverBothOpen(polls: seq<Poll>)
    requires Completes(ProcessAll(polls).sent)
    ensures var log := ProcessAll(polls).sent;
            RecordLog(log).matched <==> NeverBothOpen(log)
  {
    hide ProcessAll, RecordEvent, Observe, RecordLog, Watch;
    var log := ProcessAll(polls).sent;
    OneTerminalAndLast(polls);
    EveryRunIsWellFormed(polls);
    var n := |log| - 1;
    assert forall i :: 0 <= i < n ==> log[i].Ok? by { assert forall i :: 0 <= i < n ==> !IsTerminal(log[i]); }
    RecordMirrors(log);
    CompletedHasNothingOpen(log);
  }

  lemma CompletedHasNothingOpen(log: seq<Output>)
    requires Watch(NOTHING_SEEN, log).Some? && Completes(log) && IsTerminal(log[|log| - 1])
    ensures Watch(NOTHING_SEEN, log).value.reasoning.None? && Watch(NOTHING_SEEN, log).value.assistant.None?
  {
    hide Observe;
    CompletedClosesAll(Watch(NOTHING_SEEN, log[..|log| - 1]).value, log[|log| - 1].value);
  }

  lemma CompletedClosesAll(v: View, e: ResponseEvent)
    requires e.Completed? && Observe(v, Ok(e)).Some?
    ensures Observe(v, Ok(e)).value.reasoning.None? && Observe(v, Ok(e)).value.assistant.None?
  {
  }

  // ---------------------------------------------------------------------------
  // Handles do not match in general

  lemma {:induction false} NeverBothOpenOfPrefix(a: seq<Output>, b: seq<Output>)
    requires NeverBothOpen(a + b)
    ensures NeverBothOpen(a)
  {
    hide Watch;
    if b == [] {
      assert a + b == a;
    } else {
      assert (a + b)[..|a + b| - 1] == a + b[..|b| - 1];
      NeverBothOpenOfPrefix(a, b[..|b| - 1]);
    }
  }

  lemma CompletingExtends(a: Assembler)
    ensures a.sent <= FlushAndComplete(a).sent
    ensures Completes(FlushAndComplete(a).sent)
  {
    hide PlanDeltasOf, PlanDoneEvent;
  }

  /** Whenever a stream ends with reasoning and text both received, some handle is wrong. */
  lemma OverlapMismatches(polls: seq<Poll>)
    requires var a := ApplyPolls(START, polls); !a.closed && a.reasoning.Some? && a.assistant.Some?
    ensures Completes(ProcessAll(polls).sent) && !RecordLog(ProcessAll(polls).sent).matched
  {
    hide ApplyPolls, FlushAndComplete, RecordLog, Watch, NeverBothOpen;
    var a := ApplyPolls(START, polls);
    PollsFollow(polls);
    CompletingExtends(a);
    var log := ProcessAll(polls).sent;
    assert log == a.sent + log[|a.sent|..];
    HandlesMatchIffNeverBothOpen(polls);
    if NeverBothOpen(log) {
      NeverBothOpenOfPrefix(a.sent, log[|a.sent|..]);
      NotBothOpenNow(a.sent);
    }
  }

  lemma NotBothOpenNow(log: seq<Output>)
    requires NeverBothOpen(log)
    ensures !BothOpen(Watch(NOTHING_SEEN, log))
  {
    hide Watch;
  }

  function DeltaPoll(delta: Delta): Poll {
    Data(ChunkData(Chunk(None, Some([Choice(None, Some(delta), None)]))))
  }

  const THINKING: Delta := Delta(None, Some(ReasoningString("hm")), None, None)
  const SPEAKING: Delta := Delta(None, None, Some(ContentString("hi")), None)

  /** A response that thinks and then speaks completes its items under wrong handles. */
  lemma ThinkingThenSpeakingMismatches()
    ensures var log := ProcessAll([DeltaPoll(THINKING), DeltaPoll(SPEAKING)]).sent;
            Completes(log) && !RecordLog(log).matched
  {
    hide ProcessAll, ApplyPolls, RecordLog, AllDeltas, ReasoningTextsIn, ContentTextsIn, ToolDeltasIn, HasRead;
    PollsAreContent();
    var polls := [DeltaPoll(THINKING), DeltaPoll(SPEAKING)];
    ReadPolls(polls);
    DeltasRead();
    ThoughtAndSpoke(ApplyPolls(START, polls));
    OverlapMismatches(polls);
  }

  lemma PollsAreContent()
    ensures IsContentPoll(DeltaPoll(THINKING)) && IsContentPoll(DeltaPoll(SPEAKING))
  {
  }

  /** Where an assembler stands that has thought and spoken. */
  lemma ThoughtAndSpoke(a: Assembler)
    requires HasRead(a, [THINKING, SPEAKING])
    ensures !a.closed && a.reasoning.Some? && a.assistant.Some?
  {
    hide ToolCallTable.AddAll;
    TextsRead();
  }

  lemma DeltasRead()
    ensures AllDeltas([DeltaPoll(THINKING), DeltaPoll(SPEAKING)]) == [THINKING, SPEAKING]
  {
    var polls := [DeltaPoll(THINKING), DeltaPoll(SPEAKING)];
    assert PollDeltas(polls[0]) == [THINKING] && PollDeltas(polls[1]) == [SPEAKING];
    hide PollDeltas;
    assert polls[..1] == [polls[0]] && polls[..1][..0] == [];
    assert AllDeltas([polls[0]]) == [] + [THINKING];
  }

  lemma TextsRead()
    ensures ReasoningTextsIn([THINKING, SPEAKING]) == ["hm"] && ContentTextsIn([THINKING, SPEAKING]) == ["hi"]
  {
    var deltas := [THINKING, SPEAKING];
    assert deltas[..1] == [THINKING] && deltas[..1][..0] == [];
    assert ReasoningTextsIn([THINKING]) == ["hm"];
    assert ContentTextsIn([THINKING]) == [];
  }
}
