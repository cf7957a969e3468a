/** Item handles on the default delivery path: the adapter runs over the aggregated stream, which
    swallows the Done items of messages and sends the joined reasoning and the joined message at
    the end (src/llm/src/runtime_client.rs:269-274, src/llm/src/api/endpoint/chat.rs:176-317,
    src/llm/src/semantic.rs:571-599). */
module AggregatedHandles {
  import opened Basics
  import opened Transcript
  import opened ChatWire
  import opened ChatAssembler
  import opened ChatProtocol
  import opened SemanticEvents
  import opened Aggregator
  import opened ItemHandles

  // ---------------------------------------------------------------------------
  // What decides about the handles, on the raw stream

  predicate AddsReasoning(o: Output) { o.Ok? && o.value.OutputItemAdded? && o.value.item.Reasoning? }
  predicate AddsMessage(o: Output) { o.Ok? && o.value.OutputItemAdded? && o.value.item.Message? }
  predicate FinishesReasoning(o: Output) { o.Ok? && o.value.OutputItemDone? && o.value.item.Reasoning? }

  datatype LastItem = NoItem | ReasoningBegun | MessageBegun

  /** The last of: a reasoning item begins, a message begins, a reasoning item ends. */
  function LastOf(log: seq<Output>): LastItem {
    if log == [] then NoItem
    else
      var o := log[|log| - 1];
      if AddsReasoning(o) then ReasoningBegun
      else if AddsMessage(o) then MessageBegun
      else if FinishesReasoning(o) then NoItem
      else LastOf(log[..|log| - 1])
  }

  predicate EverAdds(log: seq<Output>, adds: Output -> bool) {
    exists i :: 0 <= i < |log| && adds(log[i])
  }

  /** A message begins while a reasoning item is open. */
  predicate Interrupted(log: seq<Output>) {
    log != []
    && var front := log[..|log| - 1];
       Interrupted(front)
       || (AddsMessage(log[|log| - 1]) && Watch(NOTHING_SEEN, front).Some?
           && Watch(NOTHING_SEEN, front).value.reasoning.Some?)
  }

  // ---------------------------------------------------------------------------
  // The record over the events that pass through

  /** The record over the passed events, as far as the raw stream shows it. */
  predicate Tracks(r: Record, v: View, last: LastItem, interrupted: bool) {
    && r.reasoning == (if v.reasoning.Some? then Some([]) else None)
    && (r.message.Some? ==> IsSyntheticBefore(r.message.value, r.handles.next))
    && r.started
    && (v.assistant.Some? ==> r.message.Some?)
    && (last.MessageBegun? ==> r.message.Some?)
    && r.handles.active == (match last
                            case NoItem => None
                            case ReasoningBegun => Some([])
                            case MessageBegun => r.message)
    && (if v.reasoning.Some? then !last.NoItem? && (last.MessageBegun? ==> interrupted) else !last.ReasoningBegun?)
    && (interrupted ==> !r.matched || (v.reasoning.Some? && last.MessageBegun?))
    && (!interrupted ==> r.matched)
  }

  lemma SyntheticIsNotEmpty(handle: string, n: nat)
    requires IsSyntheticBefore(handle, n)
    ensures handle != [] && IsSyntheticBefore(handle, n + 1)
  {
    var j :| 0 <= j < n && handle == Synthetic(j);
    assert j < n + 1;
  }

  lemma NewestIsSynthetic(n: nat)
    ensures IsSyntheticBefore(Synthetic(n), n + 1)
  {
    hide Synthetic;
    assert n < n + 1;
  }

  /** One event of the raw stream, passed on or not. */
  lemma TracksOneMore(r: Record, log: seq<Output>, o: Output)
    requires Watch(NOTHING_SEEN, log).Some? && Observe(Watch(NOTHING_SEEN, log).value, o).Some? && !IsTerminal(o)
    requires Tracks(r, Watch(NOTHING_SEEN, log).value, LastOf(log), Interrupted(log))
    ensures var s := if Passes(o) then RecordEvent(r, o.value) else r;
            && Tracks(s, Observe(Watch(NOTHING_SEEN, log).value, o).value, LastOf(log + [o]), Interrupted(log + [o]))
            && (r.message.Some? ==> s.message.Some?)
            && (o.value.OutputTextDelta? ==> s.message.Some?)
  {
    hide Synthetic, IsSyntheticBefore, PlanReported, Watch;
    assert (log + [o])[..|log|] == log;
    NewestIsSynthetic(r.handles.next);
    if r.message.Some? {
      SyntheticIsNotEmpty(r.message.value, r.handles.next);
    }
  }

  lemma RecordOneMore(log: seq<Output>, o: Output)
    requires o.Ok?
    ensures RecordLog(log + [o]) == RecordEvent(RecordLog(log), o.value)
  {
    hide RecordEvent;
    assert (log + [o])[..|log|] == log;
  }

  lemma {:induction false} PassedTracks(log: seq<Output>)
    requires Watch(NOTHING_SEEN, log).Some? && !Watch(NOTHING_SEEN, log).value.ended
    ensures Tracks(RecordLog(PassedOn(log)), Watch(NOTHING_SEEN, log).value, LastOf(log), Interrupted(log))
    ensures TextOf(log) != [] ==> RecordLog(PassedOn(log)).message.Some?
  {
    hide RecordEvent, RecordLog, Observe, Tracks, LastOf, Interrupted;
    if log == [] {
      NothingTracked();
    } else {
      var n := |log| - 1;
      var front, o := log[..n], log[n];
      StillOpen(front, o);
      PassedTracks(front);
      TracksOneMore(RecordLog(PassedOn(front)), front, o);
      assert front + [o] == log;
      if Passes(o) {
        RecordOneMore(PassedOn(front), o);
      } else {
        assert PassedOn(front) + [] == PassedOn(front);
      }
      if !o.value.OutputTextDelta? {
        assert TextOf(front) + [] == TextOf(front);
      }
    }
  }

  lemma NothingTracked()
    ensures Watch(NOTHING_SEEN, []) == Some(NOTHING_SEEN)
    ensures Tracks(RecordLog(PassedOn([])), NOTHING_SEEN, LastOf([]), Interrupted([])) && TextOf([]) == []
  {
  }

  lemma StillOpen(front: seq<Output>, o: Output)
    requires Watch(NOTHING_SEEN, front + [o]).Some? && !Watch(NOTHING_SEEN, front + [o]).value.ended
    ensures Watch(NOTHING_SEEN, front).Some? && !Watch(NOTHING_SEEN, front).value.ended && !IsTerminal(o)
    ensures Watch(NOTHING_SEEN, front + [o]) == Observe(Watch(NOTHING_SEEN, front).value, o)
  {
    hide PlanReported;
    assert (front + [o])[..|front|] == front;
  }

  // ---------------------------------------------------------------------------
  // The end of the aggregated stream

  /** What the handles over the aggregated stream depend on. */
  predicate HandlesFit(front: seq<Output>) {
    && !Interrupted(front)
    && if ReasoningOf(front) != [] then TextOf(front) == [] && !LastOf(front).MessageBegun?
       else TextOf(front) != [] ==> LastOf(front).MessageBegun?
  }

  /** The joined reasoning is completed under the active handle, or under the one it suggests. */
  lemma JoinedReasoningRecorded(r: Record, text: string)
    requires r.reasoning.None?
    ensures var s := RecordEvent(r, OutputItemDone(ReasoningItem([text])));
            && s.message == r.message && s.handles == Handles(None, r.handles.next) && !s.started
            && (s.matched <==> r.matched && (r.handles.active == None || r.handles.active == Some([])))
  {
  }

  lemma JoinedMessageRecorded(r: Record, text: string)
    requires r.message.Some? && IsSyntheticBefore(r.message.value, r.handles.next)
    ensures var s := RecordEvent(r, OutputItemDone(AssistantMessage([text])));
            && s.started == r.started
            && (s.matched <==> r.matched && r.handles.active == r.message)
  {
    hide Synthetic;
    FreshDiffers(r.message.value, r.handles.next);
  }

  lemma CompletedRecorded(r: Record, e: ResponseEvent)
    requires e.Completed?
    ensures RecordEvent(r, e).matched == r.matched && RecordEvent(r, e).started == r.started
  {
  }

  lemma SummaryRecorded(passed: seq<Output>, t: Totals, end: Output, last: LastItem, interrupted: bool)
    requires end.Ok? && end.value.Completed?
    requires exists v: View :: v.reasoning.None? && Tracks(RecordLog(passed), v, last, interrupted)
    requires t.text != [] ==> RecordLog(passed).message.Some?
    ensures var s := RecordLog(passed + (SummaryItems(t) + [end]));
            && (s.matched <==> !interrupted && if t.reasoning != [] then t.text == [] && !last.MessageBegun?
                                               else t.text != [] ==> last.MessageBegun?)
            && (s.started <==> t.reasoning == [])
  {
    hide RecordEvent, RecordLog, IsSyntheticBefore;
    var r := RecordLog(passed);
    if r.message.Some? {
      SyntheticIsNotEmpty(r.message.value, r.handles.next);
    }
    var reasoned := passed + if t.reasoning == [] then [] else [Ok(OutputItemDone(ReasoningItem([t.reasoning])))];
    if t.reasoning == [] {
      assert reasoned == passed;
    } else {
      RecordOneMore(passed, Ok(OutputItemDone(ReasoningItem([t.reasoning]))));
      JoinedReasoningRecorded(r, t.reasoning);
    }
    var said := reasoned + if t.text == [] then [] else [Ok(OutputItemDone(AssistantMessage([t.text])))];
    if t.text == [] {
      assert said == reasoned;
    } else {
      RecordOneMore(reasoned, Ok(OutputItemDone(AssistantMessage([t.text]))));
      JoinedMessageRecorded(RecordLog(reasoned), t.text);
    }
    RecordOneMore(said, end);
    CompletedRecorded(RecordLog(said), end.value);
    assert passed + (SummaryItems(t) + [end]) == said + [end];
  }

  function Delivered(polls: seq<Poll>): seq<Output> {
    Aggregate(AggregatedOnly, NO_TOTALS, ProcessAll(polls).sent).1
  }

  lemma NoReasoningOpen(log: seq<Output>)
    requires log != [] && Watch(NOTHING_SEEN, log).Some? && log[|log| - 1].Ok? && log[|log| - 1].value.Completed?
    ensures var front := log[..|log| - 1];
            && Watch(NOTHING_SEEN, front).Some? && !Watch(NOTHING_SEEN, front).value.ended
            && Watch(NOTHING_SEEN, front).value.reasoning.None?
  {
  }

  /** The exact condition for the default delivery of a completed stream: items are completed
      under their own handles iff no message begins inside a reasoning item and, at the end,
      either there is reasoning text, no text, and no message began last, or there is no reasoning
      text, and no text or a message began last.  The joined message counts as that message,
      whichever message its text came in.  All items completed were started iff there is no
      reasoning text. */
  lemma AggregatedHandlesMatchIff(polls: seq<Poll>)
    requires Completes(ProcessAll(polls).sent)
    ensures var log := ProcessAll(polls).sent;
            var front := log[..|log| - 1];
            && (RecordLog(Delivered(polls)).matched <==> HandlesFit(front))
            && (RecordLog(Delivered(polls)).started <==> ReasoningOf(front) == [])
  {
    hide ProcessAll, Watch, Tracks, RecordLog, Aggregate, LastOf, Interrupted;
    var log := ProcessAll(polls).sent;
    OneTerminalAndLast(polls);
    EveryRunIsWellFormed(polls);
    var front := log[..|log| - 1];
    NoReasoningOpen(log);
    PassedTracks(front);
    AggregatesAssembledStream(polls);
    var v := Watch(NOTHING_SEEN, front).value;
    assert v.reasoning.None? && Tracks(RecordLog(PassedOn(front)), v, LastOf(front), Interrupted(front));
    SummaryRecorded(PassedOn(front), Totals(TextOf(front), ReasoningOf(front)), log[|log| - 1], LastOf(front),
                    Interrupted(front));
  }

  // ---------------------------------------------------------------------------
  // In terms of what the response holds

  /** Without reasoning items: no reasoning text, nothing interrupted, and a message with text began last. */
  predicate NoThinking(log: seq<Output>) {
    && ReasoningOf(log) == [] && !Interrupted(log) && !LastOf(log).ReasoningBegun?
    && (TextOf(log) != [] ==> LastOf(log).MessageBegun?)
  }

  lemma {:induction false} WithoutReasoning(log: seq<Output>)
    requires Watch(NOTHING_SEEN, log).Some? && !Watch(NOTHING_SEEN, log).value.ended
    requires !EverAdds(log, AddsReasoning)
    ensures NoThinking(log)
    ensures var v := Watch(NOTHING_SEEN, log).value;
            v.reasoning.None? && (v.assistant.Some? ==> LastOf(log).MessageBegun?)
  {
    hide PlanReported, Watch, EverAdds;
    if log == [] {
      NothingTracked();
    } else {
      var n := |log| - 1;
      var front, o := log[..n], log[n];
      assert front + [o] == log;
      StillOpen(front, o);
      AddsMore(front, o, AddsReasoning);
      WithoutReasoning(front);
    }
  }

  /** Without messages: no text, nothing interrupted, and no message began last. */
  predicate NoSpeaking(log: seq<Output>) {
    TextOf(log) == [] && !Interrupted(log) && !LastOf(log).MessageBegun?
  }

  lemma {:induction false} WithoutMessages(log: seq<Output>)
    requires Watch(NOTHING_SEEN, log).Some? && !Watch(NOTHING_SEEN, log).value.ended
    requires !EverAdds(log, AddsMessage)
    ensures NoSpeaking(log) && Watch(NOTHING_SEEN, log).value.assistant.None?
  {
    hide PlanReported, Watch, EverAdds;
    if log == [] {
      NothingTracked();
    } else {
      var n := |log| - 1;
      var front, o := log[..n], log[n];
      assert front + [o] == log;
      StillOpen(front, o);
      AddsMore(front, o, AddsMessage);
      WithoutMessages(front);
    }
  }

  lemma AddsMore(front: seq<Output>, o: Output, adds: Output -> bool)
    ensures EverAdds(front, adds) || adds(o) ==> EverAdds(front + [o], adds)
  {
    var log := front + [o];
    if i :| 0 <= i < |front| && adds(front[i]) {
      assert adds(log[i]);
    }
    assert log[|front|] == o;
  }

  /** A response of one kind is always completed under its own handles; one with text of both
      kinds never is.  So, if no item stays without text, the handles match iff reasoning and
      message do not both occur. */
  lemma MatchIffOneKind(polls: seq<Poll>)
    requires Completes(ProcessAll(polls).sent)
    ensures var log := ProcessAll(polls).sent;
            var front := log[..|log| - 1];
            var matched := RecordLog(Delivered(polls)).matched;
            var thinks, speaks := EverAdds(front, AddsReasoning), EverAdds(front, AddsMessage);
            && (!thinks || !speaks ==> matched)
            && (ReasoningOf(front) != [] && TextOf(front) != [] ==> !matched)
            && ((thinks ==> ReasoningOf(front) != []) && (speaks ==> TextOf(front) != [])
                ==> (matched <==> !(thinks && speaks)))
  {
    hide ProcessAll, Watch, RecordLog, Delivered, LastOf, Interrupted, EverAdds;
    AggregatedHandlesMatchIff(polls);
    var log := ProcessAll(polls).sent;
    OneTerminalAndLast(polls);
    EveryRunIsWellFormed(polls);
    NoReasoningOpen(log);
    if !EverAdds(log[..|log| - 1], AddsReasoning) {
      WithoutReasoning(log[..|log| - 1]);
    }
    if !EverAdds(log[..|log| - 1], AddsMessage) {
      WithoutMessages(log[..|log| - 1]);
    }
  }

  // ---------------------------------------------------------------------------
  // Items that are started and never completed

  function Count<T>(items: seq<T>, counts: T -> bool): nat {
    if items == [] then 0
    else Count(items[..|items| - 1], counts) + if counts(items[|items| - 1]) then 1 else 0
  }

  predicate StartsMessage(e: TurnEvent) { e.ItemStarted? && e.output.item.Message? }
  predicate StartsReasoning(e: TurnEvent) { e.ItemStarted? && e.output.item.Reasoning? }
  predicate CompletesMessage(e: TurnEvent) { e.ItemCompleted? && e.output.item.Message? }
  predicate CompletesReasoning(e: TurnEvent) { e.ItemCompleted? && e.output.item.Reasoning? }

  /** The turn events that the adapter makes of a log. */
  function Heard(log: seq<Output>): (Handles, seq<TurnEvent>) {
    if log == [] then (Handles(None, 0), [])
    else
      var n := |log| - 1;
      var (h, events) := Heard(log[..n]);
      if log[n].Err? then (h, events) else (Adapt(h, log[n].value).0, events + Adapt(h, log[n].value).1)
  }

  /** Items started and completed so far, by kind. */
  datatype Tally = Tally(messages: nat, messagesDone: nat, reasonings: nat, reasoningsDone: nat)

  function TallyOf(log: seq<Output>): Tally {
    var events := Heard(log).1;
    Tally(Count(events, StartsMessage), Count(events, CompletesMessage), Count(events, StartsReasoning),
          Count(events, CompletesReasoning))
  }

  lemma CountOneMore<T>(items: seq<T>, more: seq<T>, counts: T -> bool)
    requires |more| <= 1
    ensures Count(items + more, counts) == Count(items, counts) + if more != [] && counts(more[0]) then 1 else 0
  {
    if more == [] {
      assert items + more == items;
    } else {
      assert (items + more)[..|items|] == items;
    }
  }

  /** What one more event does to the tally. */
  lemma TallyOneMore(log: seq<Output>, o: Output)
    requires o.Ok? && (o.value.OutputItemAdded? || o.value.OutputItemDone? ==>
                         IsAssistant(o.value.item) || !o.value.item.Message?)
    ensures var t, u := TallyOf(log), TallyOf(log + [o]);
            && u.messages == t.messages + (if AddsMessage(o) then 1 else 0)
            && u.reasonings == t.reasonings + (if AddsReasoning(o) then 1 else 0)
            && u.messagesDone == t.messagesDone + (if o.value.OutputItemDone? && o.value.item.Message? then 1 else 0)
            && u.reasoningsDone == t.reasoningsDone + (if FinishesReasoning(o) then 1 else 0)
  {
    hide Count, Synthetic, SuggestedHandle;
    assert (log + [o])[..|log|] == log;
    var (h, events) := Heard(log);
    var more := Adapt(h, o.value).1;
    CountOneMore(events, more, StartsMessage);
    CountOneMore(events, more, CompletesMessage);
    CountOneMore(events, more, StartsReasoning);
    CountOneMore(events, more, CompletesReasoning);
  }

  /** The tally over the events that pass through: no message is completed, and all reasoning items
      but an open one are. */
  predicate Tallies(t: Tally, v: View, begun: nat, text: string) {
    && t.messages == begun && t.messagesDone == 0
    && t.reasonings == t.reasoningsDone + (if v.reasoning.Some? then 1 else 0)
    && (v.assistant.Some? || text != [] ==> 0 < begun)
  }

  /** What one more event of the raw stream does to the tally of what passes. */
  lemma TallyPassed(log: seq<Output>, o: Output, v: View)
    requires Observe(v, o).Some? && !IsTerminal(o)
    ensures var t, u := TallyOf(PassedOn(log)), TallyOf(PassedOn(log + [o]));
            && u.messages == t.messages + (if AddsMessage(o) then 1 else 0)
            && u.reasonings == t.reasonings + (if AddsReasoning(o) then 1 else 0)
            && u.messagesDone == t.messagesDone
            && u.reasoningsDone == t.reasoningsDone + (if FinishesReasoning(o) then 1 else 0)
  {
    hide TallyOf, PlanReported;
    assert (log + [o])[..|log|] == log;
    if Passes(o) {
      TallyOneMore(PassedOn(log), o);
    } else {
      assert PassedOn(log) + [] == PassedOn(log);
    }
  }

  /** What it does to the view. */
  lemma ViewMoves(v: View, o: Output)
    requires Observe(v, o).Some? && !IsTerminal(o)
    ensures var w := Observe(v, o).value;
            && (AddsReasoning(o) ==> v.reasoning.None? && w.reasoning.Some?)
            && (FinishesReasoning(o) ==> v.reasoning.Some? && w.reasoning.None?)
            && (!AddsReasoning(o) && !FinishesReasoning(o) ==> w.reasoning.Some? == v.reasoning.Some?)
            && (w.assistant.Some? ==> v.assistant.Some? || AddsMessage(o))
            && (o.value.OutputTextDelta? ==> v.assistant.Some?)
  {
    hide PlanReported;
  }

  lemma TalliesOneMore(log: seq<Output>, o: Output, v: View)
    requires Observe(v, o).Some? && !IsTerminal(o)
    requires Tallies(TallyOf(PassedOn(log)), v, Count(log, AddsMessage), TextOf(log))
    ensures Tallies(TallyOf(PassedOn(log + [o])), Observe(v, o).value, Count(log + [o], AddsMessage), TextOf(log + [o]))
  {
    hide TallyOf, Count, Observe, PassedOn, FinishesReasoning, AddsReasoning;
    CountOneMore(log, [o], AddsMessage);
    TallyPassed(log, o, v);
    ViewMoves(v, o);
    assert (log + [o])[..|log|] == log;
    assert TextOf(log) + [] == TextOf(log);
    assert FinishesReasoning(o) ==> !AddsReasoning(o) by { ViewMoves(v, o); }
  }

  lemma {:induction false} PassedTallies(log: seq<Output>)
    requires Watch(NOTHING_SEEN, log).Some? && !Watch(NOTHING_SEEN, log).value.ended
    ensures Tallies(TallyOf(PassedOn(log)), Watch(NOTHING_SEEN, log).value, Count(log, AddsMessage), TextOf(log))
  {
    if log == [] {
      NothingTracked();
    } else {
      hide Watch, Observe, Tallies, TallyOf, Count, PassedOn, TextOf;
      var n := |log| - 1;
      var front, o := log[..n], log[n];
      assert front + [o] == log;
      StillOpen(front, o);
      PassedTallies(front);
      TalliesOneMore(front, o, Watch(NOTHING_SEEN, front).value);
    }
  }

  /** The joined items complete one reasoning item and one message, if they have text. */
  lemma SummaryTallies(passed: seq<Output>, t: Totals, end: Output)
    requires end.Ok? && end.value.Completed?
    ensures var u, v := TallyOf(passed), TallyOf(passed + (SummaryItems(t) + [end]));
            && v.messages == u.messages && v.reasonings == u.reasonings
            && v.messagesDone == u.messagesDone + (if t.text == [] then 0 else 1)
            && v.reasoningsDone == u.reasoningsDone + (if t.reasoning == [] then 0 else 1)
  {
    hide TallyOf;
    var thought := Ok(OutputItemDone(ReasoningItem([t.reasoning])));
    var spoken := Ok(OutputItemDone(AssistantMessage([t.text])));
    var reasoned := passed + if t.reasoning == [] then [] else [thought];
    if t.reasoning == [] {
      assert reasoned == passed;
    } else {
      TallyOneMore(passed, thought);
    }
    var said := reasoned + if t.text == [] then [] else [spoken];
    if t.text == [] {
      assert said == reasoned;
    } else {
      TallyOneMore(reasoned, spoken);
    }
    TallyOneMore(said, end);
    assert passed + (SummaryItems(t) + [end]) == said + [end];
  }

  /** Over the default delivery of a completed stream every started reasoning item is completed, and
      the joined one besides; of the messages one is completed, if there is text.  So every started
      item is completed iff no message began, or one did and has text. */
  lemma AllCompletedIff(polls: seq<Poll>)
    requires Completes(ProcessAll(polls).sent)
    ensures var log := ProcessAll(polls).sent;
            var front := log[..|log| - 1];
            var t := TallyOf(Delivered(polls));
            var begun := Count(front, AddsMessage);
            && t.messages == begun && t.messagesDone == (if TextOf(front) == [] then 0 else 1)
            && t.reasoningsDone == t.reasonings + (if ReasoningOf(front) == [] then 0 else 1)
            && (TextOf(front) != [] ==> 0 < begun)
            && (t.messages == t.messagesDone <==> begun == 0 || (begun == 1 && TextOf(front) != []))
  {
    hide ProcessAll, Watch, TallyOf, Aggregate, Count;
    var log := ProcessAll(polls).sent;
    OneTerminalAndLast(polls);
    EveryRunIsWellFormed(polls);
    var front := log[..|log| - 1];
    NoReasoningOpen(log);
    PassedTallies(front);
    AggregatesAssembledStream(polls);
    SummaryTallies(PassedOn(front), Totals(TextOf(front), ReasoningOf(front)), log[|log| - 1]);
  }
}
