/** Merging token deltas into one assistant message: `AggregatedStream::poll_next`
    (src/llm/src/api/endpoint/chat.rs:160-317). */
module Aggregator {
  import opened Basics
  import opened Transcript
  import opened ChatWire
  import opened ChatAssembler
  import opened ChatProtocol

  datatype Mode = AggregatedOnly | Streaming

  datatype Totals = Totals(text: string, reasoning: string)

  const NO_TOTALS: Totals := Totals([], [])

  // ---------------------------------------------------------------------------
  // The one-pass meaning on lists of events

  function FirstOutputText(content: seq<ContentItem>): string {
    if content == [] then []
    else if content[0].OutputText? then content[0].text
    else FirstOutputText(content[1..])
  }

  function SummaryItems(t: Totals): seq<Output> {
    (if t.reasoning == [] then [] else [Ok(OutputItemDone(ReasoningItem([t.reasoning])))])
    + (if t.text == [] then [] else [Ok(OutputItemDone(AssistantMessage([t.text])))])
  }

  /** What one event adds to the totals, and what is passed on for it. */
  function Aggregate1(mode: Mode, t: Totals, o: Output): (Totals, seq<Output>) {
    match o
    case Err(_) => (t, [o])
    case Ok(OutputItemDone(item)) =>
      if !IsAssistant(item) then (t, [o])
      else if mode.AggregatedOnly? then
        (if t.text == [] then t.(text := FirstOutputText(item.content)) else t, [])
      else (t, if t.text == [] then [o] else [])
    case Ok(Completed(_, _)) => (NO_TOTALS, SummaryItems(t) + [o])
    case Ok(Created) => (t, [])
    case Ok(OutputTextDelta(delta)) =>
      (t.(text := t.text + delta), if mode.Streaming? then [o] else [])
    case Ok(ReasoningContentDelta(delta, _)) =>
      (t.(reasoning := t.reasoning + delta), if mode.Streaming? then [o] else [])
    case Ok(ReasoningSummaryDelta(_, _)) => (t, [])
    case Ok(ReasoningSummaryPartAdded(_)) => (t, [])
    case Ok(_) => (t, [o])
  }

  function Aggregate(mode: Mode, t: Totals, log: seq<Output>): (Totals, seq<Output>) {
    if log == [] then (t, [])
    else
      var (before, out) := Aggregate(mode, t, log[..|log| - 1]);
      var (after, more) := Aggregate1(mode, before, log[|log| - 1]);
      (after, out + more)
  }

  lemma {:induction false} AggregateAppend(mode: Mode, t: Totals, a: seq<Output>, b: seq<Output>)
    ensures var (m, out) := Aggregate(mode, t, a);
            var (n, more) := Aggregate(mode, m, b);
            Aggregate(mode, t, a + b) == (n, out + more)
  {
    hide Aggregate1;
    if b == [] {
      assert a + b == a;
      assert Aggregate(mode, t, a).1 + [] == Aggregate(mode, t, a).1;
    } else {
      var k := |b| - 1;
      assert (a + b)[..|a| + k] == a + b[..k];
      AggregateAppend(mode, t, a, b[..k]);
      var (m, out) := Aggregate(mode, t, a);
      var (n, more) := Aggregate(mode, m, b[..k]);
      Associative(out, more, Aggregate1(mode, n, b[k]).1);
    }
  }

  lemma AggregateFirst(mode: Mode, t: Totals, o: Output, rest: seq<Output>)
    ensures var (m, out) := Aggregate1(mode, t, o);
            var (n, more) := Aggregate(mode, m, rest);
            Aggregate(mode, t, [o] + rest) == (n, out + more)
  {
    hide Aggregate1;
    AggregateAppend(mode, t, [o], rest);
    assert [o][..0] == [];
    assert [] + Aggregate1(mode, t, o).1 == Aggregate1(mode, t, o).1;
  }

  // ---------------------------------------------------------------------------
  // The polled stream

  /** What the inner stream answers to a poll while it has not ended. */
  datatype Answer = NotReady | Ready(output: Output)

  datatype PollResult = PollPending | PollEnd | PollItem(output: Output)

  function Outputs(answers: seq<Answer>): seq<Output> {
    if answers == [] then []
    else (if answers[0].Ready? then [answers[0].output] else []) + Outputs(answers[1..])
  }

  function Oks(events: seq<ResponseEvent>): seq<Output> {
    seq(|events|, i requires 0 <= i < |events| => Ok(events[i]))
  }

  class AggregatedStream {
    var inner: seq<Answer>
    var cumulative: string
    var cumulativeReasoning: string
    var pending: seq<ResponseEvent>
    const mode: Mode

    /** Everything this stream will still yield. */
    function Future(): seq<Output>
      reads this
    {
      Oks(pending) + Aggregate(mode, Totals(cumulative, cumulativeReasoning), Outputs(inner)).1
    }

    constructor (inner: seq<Answer>, mode: Mode)
      ensures this.mode == mode && this.inner == inner && pending == []
      ensures Future() == Aggregate(mode, NO_TOTALS, Outputs(inner)).1
    {
      this.inner, this.mode := inner, mode;
      cumulative, cumulativeReasoning, pending := [], [], [];
    }

    /** A poll yields the next output of the one-pass meaning, or nothing yet, or the end. */
    method PollNext() returns (r: PollResult)
      modifies this
      ensures r.PollItem? ==> old(Future()) == [r.output] + Future()
      ensures !r.PollItem? ==> old(Future()) == Future()
      ensures r.PollEnd? ==> Future() == [] && inner == [] && pending == []
      ensures |inner| <= old(|inner|)
      ensures !r.PollEnd? ==> |inner| < old(|inner|) || (inner == old(inner) && |pending| < old(|pending|))
    {
      if pending != [] {
        r := PollItem(Ok(pending[0]));
        OksFirst(pending);
        pending := pending[1..];
        return;
      }
      assert Oks([]) == [];
      while inner != []
        invariant pending == [] && Future() == old(Future()) && |inner| <= old(|inner|)
        decreases |inner|
      {
        hide Aggregate, Aggregate1, Outputs;
        var answer := inner[0];
        ghost var totals := Totals(cumulative, cumulativeReasoning);
        OutputsFirst(inner);
        inner := inner[1..];
        NothingThen(Outputs(inner));
        if answer.NotReady? {
          return PollPending;
        }
        AggregateFirst(mode, totals, answer.output, Outputs(inner));
        var yielded := HandleOutput(answer.output);
        ghost var rest := Aggregate(mode, Totals(cumulative, cumulativeReasoning), Outputs(inner)).1;
        NothingThen(rest);
        if yielded.Some? {
          Associative([yielded.value], Oks(pending), rest);
          return PollItem(yielded.value);
        }
      }
      r := PollEnd;
    }

    /** One output of the inner stream: what to yield for it now, and what to hold pending. */
    method HandleOutput(output: Output) returns (yielded: Option<Output>)
      requires pending == []
      modifies this`cumulative, this`cumulativeReasoning, this`pending
      ensures Aggregate1(mode, Totals(old(cumulative), old(cumulativeReasoning)), output)
           == (Totals(cumulative, cumulativeReasoning),
               (if yielded.Some? then [yielded.value] else []) + Oks(pending))
      ensures yielded.None? ==> pending == []
    {
      hide FirstOutputText;
      assert Oks([]) == [] && [output] + Oks([]) == [output];
      NothingThen(Oks([]));
      yielded := Some(output);
      match output {
        case Err(_) =>
        case Ok(OutputItemDone(item)) =>
          if IsAssistant(item) {
            if mode.AggregatedOnly? {
              if cumulative == [] {
                cumulative := FirstOutputText(item.content);
              }
              yielded := None;
            } else if cumulative != [] {
              yielded := None;
            }
          }
        case Ok(Completed(responseId, usage)) =>
          var reported := Summarize();
          ghost var summary := Oks(pending);
          if reported {
            pending := pending + [Completed(responseId, usage)];
            assert Oks(pending) == summary + [output];
            OksFirst(pending);
            yielded := Some(Ok(pending[0]));
            pending := pending[1..];
          } else {
            assert pending == [] && summary + [output] == [output];
          }
        case Ok(Created) => yielded := None;
        case Ok(OutputTextDelta(delta)) =>
          cumulative := cumulative + delta;
          if !mode.Streaming? { yielded := None; }
        case Ok(ReasoningContentDelta(delta, _)) =>
          cumulativeReasoning := cumulativeReasoning + delta;
          if !mode.Streaming? { yielded := None; }
        case Ok(ReasoningSummaryDelta(_, _)) => yielded := None;
        case Ok(ReasoningSummaryPartAdded(_)) => yielded := None;
        case Ok(_) =>
      }
    }

    /** Moves the totals into pending items. */
    method Summarize() returns (reported: bool)
      requires pending == []
      modifies this`pending, this`cumulative, this`cumulativeReasoning
      ensures cumulative == [] && cumulativeReasoning == []
      ensures Oks(pending) == SummaryItems(Totals(old(cumulative), old(cumulativeReasoning)))
      ensures reported <==> pending != []
    {
      reported := false;
      if cumulativeReasoning != [] {
        pending := pending + [OutputItemDone(ReasoningItem([cumulativeReasoning]))];
        cumulativeReasoning := [];
        reported := true;
      }
      if cumulative != [] {
        pending := pending + [OutputItemDone(AssistantMessage([cumulative]))];
        cumulative := [];
        reported := true;
      }
    }
  }

  /** Polling until the end collects the one-pass meaning. */
  method Collect(stream: AggregatedStream) returns (out: seq<Output>)
    modifies stream
    ensures out == old(stream.Future())
  {
    out := [];
    while true
      invariant out + stream.Future() == old(stream.Future())
      decreases |stream.inner|, |stream.pending|
    {
      var r := stream.PollNext();
      if r.PollItem? {
        out := out + [r.output];
      } else if r.PollEnd? {
        return;
      }
    }
  }

  lemma OksFirst(events: seq<ResponseEvent>)
    requires events != []
    ensures Oks(events) == [Ok(events[0])] + Oks(events[1..])
  {
  }

  lemma OutputsFirst(answers: seq<Answer>)
    requires answers != []
    ensures Outputs(answers) == (if answers[0].Ready? then [answers[0].output] else []) + Outputs(answers[1..])
  {
  }

  lemma NothingThen(out: seq<Output>)
    ensures [] + out == out
  {
  }

  // ---------------------------------------------------------------------------
  // Aggregating an assembled chat stream

  /** The events that pass through unchanged. */
  function PassedOn(log: seq<Output>): seq<Output> {
    if log == [] then []
    else
      var n := |log| - 1;
      PassedOn(log[..n]) + if Passes(log[n]) then [log[n]] else []
  }

  predicate Passes(o: Output) {
    match o
    case Err(_) => true
    case Ok(OutputItemDone(item)) => !IsAssistant(item)
    case Ok(OutputItemAdded(_)) => true
    case Ok(ProposedPlanDelta(_)) => true
    case Ok(ProposedPlanDone(_)) => true
    case Ok(ServerReasoningIncluded(_)) => true
    case Ok(ModelsEtag(_)) => true
    case Ok(_) => false
  }

  /** All text deltas of a log, and all its reasoning deltas, joined. */
  function TextOf(log: seq<Output>): string {
    if log == [] then []
    else
      var n := |log| - 1;
      TextOf(log[..n]) + if log[n].Ok? && log[n].value.OutputTextDelta? then log[n].value.delta else []
  }

  function ReasoningOf(log: seq<Output>): string {
    if log == [] then []
    else
      var n := |log| - 1;
      ReasoningOf(log[..n]) + if log[n].Ok? && log[n].value.ReasoningContentDelta? then log[n].value.delta else []
  }

  /** While no text has come, the open message has none either, so its Done item adds nothing. */
  lemma {:induction false} OpenTextIsInTotal(log: seq<Output>)
    requires Watch(NOTHING_SEEN, log).Some?
    requires TextOf(log) == []
    ensures var v := Watch(NOTHING_SEEN, log).value;
            v.assistant.Some? ==> forall i :: 0 <= i < |v.assistant.value| ==> v.assistant.value[i] == []
  {
    if log != [] {
      hide PlanReported;
      OpenTextIsInTotal(log[..|log| - 1]);
    }
  }

  lemma NoFirstText(texts: seq<string>)
    requires forall i :: 0 <= i < |texts| ==> texts[i] == []
    ensures FirstOutputText(AssistantMessage(texts).content) == []
  {
    if texts != [] {
      assert OutputTexts(texts)[0] == OutputText(texts[0]);
    }
  }

  lemma {:induction false} AggregateBeforeEnd(log: seq<Output>)
    requires Watch(NOTHING_SEEN, log).Some? && !Watch(NOTHING_SEEN, log).value.ended
    ensures Aggregate(AggregatedOnly, NO_TOTALS, log) == (Totals(TextOf(log), ReasoningOf(log)), PassedOn(log))
  {
    if log != [] {
      hide PlanReported, FirstOutputText;
      var n := |log| - 1;
      var front, o := log[..n], log[n];
      AggregateBeforeEnd(front);
      NothingMore(front);
      if o.Ok? && o.value.OutputItemDone? && IsAssistant(o.value.item) && TextOf(front) == [] {
        OpenTextIsInTotal(front);
        NoFirstText(Watch(NOTHING_SEEN, front).value.assistant.value);
      }
    }
  }

  lemma NothingMore(log: seq<Output>)
    ensures TextOf(log) + [] == TextOf(log) && ReasoningOf(log) + [] == ReasoningOf(log)
    ensures PassedOn(log) + [] == PassedOn(log)
  {
  }

  /** Over an assembled stream that completes, the aggregated stream passes the other events on
      and yields, directly before the one Completed, the joined reasoning and the joined text,
      each exactly when it is not empty; the text of a Done message is not counted again. */
  lemma AggregatesAssembledStream(polls: seq<Poll>)
    requires Completes(ProcessAll(polls).sent)
    ensures var log := ProcessAll(polls).sent;
            var front := log[..|log| - 1];
            Aggregate(AggregatedOnly, NO_TOTALS, log).1
              == PassedOn(front) + (SummaryItems(Totals(TextOf(front), ReasoningOf(front))) + [log[|log| - 1]])
  {
    hide ProcessAll, Observe, PlanReported;
    var log := ProcessAll(polls).sent;
    OneTerminalAndLast(polls);
    EveryRunIsWellFormed(polls);
    var front := log[..|log| - 1];
    EndedOnlyByTerminal(front);
    AggregateBeforeEnd(front);
  }

  // ---------------------------------------------------------------------------
  // In streaming mode

  /** What is passed on in streaming mode: all but creation and summaries, and a Done message only
      while there is no text. */
  predicate StreamsOn(text: string, o: Output) {
    match o
    case Ok(OutputItemDone(item)) => !IsAssistant(item) || text == []
    case Ok(Created) => false
    case Ok(ReasoningSummaryDelta(_, _)) => false
    case Ok(ReasoningSummaryPartAdded(_)) => false
    case _ => true
  }

  function StreamedOn(log: seq<Output>): seq<Output> {
    if log == [] then []
    else
      var n := |log| - 1;
      StreamedOn(log[..n]) + if StreamsOn(TextOf(log[..n]), log[n]) then [log[n]] else []
  }

  lemma {:induction false} StreamBeforeEnd(log: seq<Output>)
    requires forall i :: 0 <= i < |log| ==> log[i].Err? || !log[i].value.Completed?
    ensures Aggregate(Streaming, NO_TOTALS, log) == (Totals(TextOf(log), ReasoningOf(log)), StreamedOn(log))
  {
    if log != [] {
      var front := log[..|log| - 1];
      StreamBeforeEnd(front);
      NothingMore(front);
      assert StreamedOn(front) + [] == StreamedOn(front);
    }
  }

  /** In streaming mode an assembled stream that completes keeps its deltas, and the joined items
      come once more, directly before Completed. */
  lemma StreamsAssembledStream(polls: seq<Poll>)
    requires Completes(ProcessAll(polls).sent)
    ensures var log := ProcessAll(polls).sent;
            var front := log[..|log| - 1];
            Aggregate(Streaming, NO_TOTALS, log).1
              == StreamedOn(front) + (SummaryItems(Totals(TextOf(front), ReasoningOf(front))) + [log[|log| - 1]])
  {
    hide ProcessAll, Aggregate, StreamedOn;
    var log := ProcessAll(polls).sent;
    OneTerminalAndLast(polls);
    var n := |log| - 1;
    assert forall i :: 0 <= i < n ==> !IsTerminal(log[i]);
    StreamEnds(log[..n], log[n]);
    assert log[..n] + [log[n]] == log;
  }

  lemma StreamEnds(front: seq<Output>, end: Output)
    requires forall i :: 0 <= i < |front| ==> front[i].Err? || !front[i].value.Completed?
    requires end.Ok? && end.value.Completed?
    ensures Aggregate(Streaming, NO_TOTALS, front + [end]).1
         == StreamedOn(front) + (SummaryItems(Totals(TextOf(front), ReasoningOf(front))) + [end])
  {
    hide SummaryItems, Aggregate, Aggregate1, StreamedOn, TextOf, ReasoningOf;
    StreamBeforeEnd(front);
    AggregateOneMore(Streaming, NO_TOTALS, front, end);
    CompletedAggregates(Streaming, Totals(TextOf(front), ReasoningOf(front)), end);
  }

  lemma AggregateOneMore(mode: Mode, t: Totals, front: seq<Output>, o: Output)
    ensures var (before, out) := Aggregate(mode, t, front);
            Aggregate(mode, t, front + [o])
            == (Aggregate1(mode, before, o).0, out + Aggregate1(mode, before, o).1)
  {
    hide Aggregate1;
    assert (front + [o])[..|front|] == front;
  }

  lemma CompletedAggregates(mode: Mode, t: Totals, o: Output)
    requires o.Ok? && o.value.Completed?
    ensures Aggregate1(mode, t, o) == (NO_TOTALS, SummaryItems(t) + [o])
  {
    hide SummaryItems;
  }

  // ---------------------------------------------------------------------------
  // Over any inner stream

  /** Events that are neither text nor reasoning. */
  predicate IsOther(o: Output) {
    match o
    case Err(_) => true
    case Ok(OutputItemDone(item)) => !IsAssistant(item) && !item.Reasoning?
    case Ok(OutputItemAdded(_)) => true
    case Ok(ProposedPlanDelta(_)) => true
    case Ok(ProposedPlanDone(_)) => true
    case Ok(ServerReasoningIncluded(_)) => true
    case Ok(ModelsEtag(_)) => true
    case Ok(Completed(_, _)) => true
    case Ok(_) => false
  }

  predicate IsSwallowed(o: Output) {
    o.Ok? && (o.value.Created? || o.value.ReasoningSummaryDelta? || o.value.ReasoningSummaryPartAdded?)
  }

  function Others(log: seq<Output>): seq<Output> {
    if log == [] then []
    else
      var n := |log| - 1;
      Others(log[..n]) + if IsOther(log[n]) then [log[n]] else []
  }

  lemma {:induction false} OthersAppend(a: seq<Output>, b: seq<Output>)
    ensures Others(a + b) == Others(a) + Others(b)
  {
    hide IsOther;
    if b == [] {
      assert a + b == a;
    } else {
      var n := |b| - 1;
      assert (a + b)[..|a| + n] == a + b[..n];
      OthersAppend(a, b[..n]);
      Associative(Others(a), Others(b[..n]), if IsOther(b[n]) then [b[n]] else []);
    }
  }

  lemma OneOther(o: Output)
    ensures Others([o]) == if IsOther(o) then [o] else []
  {
    assert [o][..0] == [];
  }

  lemma SummaryIsNotOther(t: Totals)
    ensures Others(SummaryItems(t)) == []
    ensures forall i :: 0 <= i < |SummaryItems(t)| ==> !IsSwallowed(SummaryItems(t)[i])
  {
    var thought := Ok(OutputItemDone(ReasoningItem([t.reasoning])));
    var said := Ok(OutputItemDone(AssistantMessage([t.text])));
    OneOther(thought);
    OneOther(said);
    OthersAppend(if t.reasoning == [] then [] else [thought], if t.text == [] then [] else [said]);
  }

  lemma OneKeepsOthers(mode: Mode, t: Totals, o: Output)
    ensures var out := Aggregate1(mode, t, o).1;
            Others(out) == (if IsOther(o) then [o] else []) && forall i :: 0 <= i < |out| ==> !IsSwallowed(out[i])
  {
    hide SummaryItems, FirstOutputText, Others;
    OneOther(o);
    NothingOther();
    if o.Ok? && o.value.Completed? {
      hide IsSwallowed;
      SummaryIsNotOther(t);
      OthersAppend(SummaryItems(t), [o]);
      CompletedAggregates(mode, t, o);
      NotSwallowed(o);
    } else {
      PassedOrNot(mode, t, o);
    }
  }

  lemma NothingOther()
    ensures Others([]) == []
  {
  }

  lemma NotSwallowed(o: Output)
    ensures o.Ok? && o.value.Completed? ==> !IsSwallowed(o) && IsOther(o)
  {
  }

  /** An event that does not complete the stream passes or does not; text, reasoning and summaries
      may be held back, creation never passes. */
  lemma PassedOrNot(mode: Mode, t: Totals, o: Output)
    requires o.Err? || !o.value.Completed?
    ensures var out := Aggregate1(mode, t, o).1;
            && (out == [] || out == [o]) && (IsOther(o) ==> out == [o]) && (IsSwallowed(o) ==> out == [])
  {
    hide FirstOutputText;
  }

  /** Over every inner stream, in both modes: creation and summaries never pass, and the events that
      are neither text nor reasoning, errors and completions among them, all pass, in order. */
  lemma {:induction false} OthersPass(mode: Mode, t: Totals, log: seq<Output>)
    ensures var out := Aggregate(mode, t, log).1;
            Others(out) == Others(log) && forall i :: 0 <= i < |out| ==> !IsSwallowed(out[i])
  {
    if log != [] {
      hide Aggregate1, IsOther, IsSwallowed;
      var n := |log| - 1;
      OthersPass(mode, t, log[..n]);
      var (before, out) := Aggregate(mode, t, log[..n]);
      OneKeepsOthers(mode, before, log[n]);
      OthersAppend(out, Aggregate1(mode, before, log[n]).1);
    }
  }

  /** Behind a Completed the totals begin anew. */
  lemma CompletedResets(mode: Mode, t: Totals, log: seq<Output>)
    requires log != [] && log[|log| - 1].Ok? && log[|log| - 1].value.Completed?
    ensures Aggregate(mode, t, log).0 == Totals("", "")
  {
  }

  /** Without deltas, the text of the first message that has any stands for them (default mode). */
  lemma DoneMessageCounts(log: seq<Output>, item: TranscriptItem)
    requires IsAssistant(item) && Aggregate(AggregatedOnly, NO_TOTALS, log).0.text == ""
    ensures forall texts :: item.content == OutputTexts(texts) && texts != [] ==>
      Aggregate(AggregatedOnly, NO_TOTALS, log + [Ok(OutputItemDone(item))]).0.text == texts[0]
  {
    assert (log + [Ok(OutputItemDone(item))])[..|log|] == log;
  }
}
