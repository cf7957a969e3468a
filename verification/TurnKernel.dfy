/** One agent turn: the kernel's event loop and result loop over the session processor
    (src/core/src/kernel.rs:32-163, src/core/src/processor.rs:81-234). */
module TurnKernel {
  import opened Basics
  import opened Transcript
  import opened SemanticEvents
  import Log = SessionLog

  datatype CallResult = CallResult(callId: string, toolName: string, payload: ToolResultPayload)

  /** How a tool future resolves: a result for the model, or a fatal tool error. */
  type ToolOutcome = Result<CallResult, string>

  datatype TurnError = Aborted | RuntimeError(message: string) | StreamClosed | ToolFailed(message: string)

  /** What the kernel gets when it waits for the next event or for cancellation. */
  datatype StreamPoll = Event(event: TurnEvent) | Failed(message: string) | Closed | Cancelled

  datatype Outcome = Outcome(needsFollowUp: bool, lastAgentMessage: Option<string>, totalTokens: Option<int>)

  function ResultItem(r: CallResult): TranscriptItem {
    ToolResult(r.callId, r.toolName, r.payload)
  }

  // ---------------------------------------------------------------------------
  // What the events of a turn mean

  /** What one event adds to the conversation. */
  function EventItems(e: TurnEvent): seq<TranscriptItem> {
    match e
    case ItemCompleted(_, output) => [output.item]
    case TurnToolCall(call) => [CallToItem(call)]
    case _ => []
  }

  function TurnItems(events: seq<TurnEvent>): seq<TranscriptItem> {
    if events == [] then [] else TurnItems(events[..|events| - 1]) + EventItems(events[|events| - 1])
  }

  function TurnCalls(events: seq<TurnEvent>): seq<CallRequest> {
    if events == [] then []
    else
      var n := |events| - 1;
      TurnCalls(events[..n]) + if events[n].TurnToolCall? then [events[n].call] else []
  }

  /** The output text of an assistant message, if it has any output text entry. */
  function AssistantOutputText(content: seq<ContentItem>): Option<string> {
    if content == [] then None
    else
      var n := |content| - 1;
      var before := AssistantOutputText(content[..n]);
      if content[n].OutputText? then Some(OrEmpty(before) + content[n].text) else before
  }

  function MessageOf(e: TurnEvent): Option<string> {
    if e.ItemCompleted? && IsAssistant(e.output.item) then AssistantOutputText(e.output.item.content) else None
  }

  /** The text of the last assistant message that has any. */
  function LastMessage(events: seq<TurnEvent>): Option<string> {
    if events == [] then None
    else
      var n := |events| - 1;
      if MessageOf(events[n]).Some? then MessageOf(events[n]) else LastMessage(events[..n])
  }

  /** The handle of the last item started. */
  function LastStarted(events: seq<TurnEvent>): Option<string> {
    if events == [] then None
    else
      var n := |events| - 1;
      if events[n].ItemStarted? then Some(events[n].handle) else LastStarted(events[..n])
  }

  /** The token total that the last completion reports. */
  function TotalTokens(events: seq<TurnEvent>): Option<int> {
    if events == [] then None
    else
      var n := |events| - 1;
      if events[n].TurnCompleted? then
        if events[n].usage.Some? then Some(events[n].usage.value.total) else None
      else TotalTokens(events[..n])
  }

  /** The session events sent for an event of the turn. */
  function SentFor(e: TurnEvent): seq<Log.SessionEvent> {
    match e
    case TurnCreated => []
    case TurnPlanDone(_, _) => []
    case TurnCompleted(_, _) => []
    case TurnTextDelta(_, delta) => [Log.TextDelta(delta)]
    case _ => [Log.OtherTurnEvent]
  }

  function Sent(events: seq<TurnEvent>): seq<Log.SessionEvent> {
    if events == [] then [] else Sent(events[..|events| - 1]) + SentFor(events[|events| - 1])
  }

  /** One event for every recorded result. */
  function SentForResults(n: nat): seq<Log.SessionEvent> {
    seq(n, i => Log.OtherTurnEvent)
  }

  /** The events up to and including the first completion, if the polls get that far. */
  function EventsRead(polls: seq<StreamPoll>): (r: seq<TurnEvent>)
    ensures |r| <= |polls|
  {
    if polls == [] || !polls[0].Event? then []
    else if polls[0].event.TurnCompleted? then [polls[0].event]
    else [polls[0].event] + EventsRead(polls[1..])
  }

  predicate ReachesCompletion(polls: seq<StreamPoll>) {
    var events := EventsRead(polls);
    events != [] && events[|events| - 1].TurnCompleted?
  }

  /** How a turn fails whose polls end before completion. */
  function StreamFailure(polls: seq<StreamPoll>): TurnError {
    var n := |EventsRead(polls)|;
    if n == |polls| then StreamClosed
    else match polls[n]
      case Failed(message) => RuntimeError(message)
      case Cancelled => Aborted
      case _ => StreamClosed
  }

  function ResultItems(outcomes: seq<ToolOutcome>): seq<TranscriptItem> {
    if outcomes == [] then []
    else
      var n := |outcomes| - 1;
      ResultItems(outcomes[..n]) + if outcomes[n].Ok? then [ResultItem(outcomes[n].value)] else []
  }

  /** The first `n` tool futures, resolved. */
  function Outcomes(resolve: nat -> ToolOutcome, n: nat): seq<ToolOutcome> {
    seq(n, i requires 0 <= i < n => resolve(i))
  }

  /** The number of leading results before the first fatal one. */
  function OkCount(outcomes: seq<ToolOutcome>): (n: nat)
    ensures n <= |outcomes|
    ensures n < |outcomes| ==> outcomes[n].Err?
    ensures forall i :: 0 <= i < n ==> outcomes[i].Ok?
  {
    if outcomes == [] || outcomes[0].Err? then 0 else 1 + OkCount(outcomes[1..])
  }

  // ---------------------------------------------------------------------------
  // The kernel

  /** The session's conversation and the state of the running turn. */
  class Turn {
    var conversation: seq<TranscriptItem>
    var needsFollowUp: bool
    var lastAgentMessage: Option<string>
    var activeHandle: Option<string>
    var totalTokens: Option<int>
    var inFlight: seq<CallRequest>
    var sent: seq<Log.SessionEvent>

    constructor (conversation: seq<TranscriptItem>)
      ensures this.conversation == conversation && Follows(conversation, [])
    {
      this.conversation := conversation;
      needsFollowUp, lastAgentMessage, activeHandle, totalTokens, inFlight, sent := false, None, None, None, [], [];
      new;
      assert conversation + [] == conversation;
    }

    /** The state after the event loop has handled these events. */
    predicate Follows(before: seq<TranscriptItem>, events: seq<TurnEvent>)
      reads this
    {
      && conversation == before + TurnItems(events)
      && inFlight == TurnCalls(events)
      && (needsFollowUp <==> TurnCalls(events) != [])
      && lastAgentMessage == LastMessage(events)
      && activeHandle == LastStarted(events)
      && totalTokens == TotalTokens(events)
      && sent == Sent(events)
    }

    /** `handle_event` of the session processor, merged into the stream state. */
    method HandleEvent(event: TurnEvent, ghost before: seq<TranscriptItem>, ghost events: seq<TurnEvent>)
      requires Follows(before, events)
      modifies this
      ensures Follows(before, events + [event])
    {
      hide AssistantOutputText, TurnItems, TurnCalls, LastMessage, LastStarted, TotalTokens, Sent;
      OneMoreEvent(events, event);
      Associative(before, TurnItems(events), EventItems(event));
      assert conversation + [] == conversation && inFlight + [] == inFlight;
      match event {
        case ItemStarted(handle, _) =>
          activeHandle := Some(handle);
        case ItemCompleted(_, output) =>
          conversation := conversation + [output.item];
          var message := if IsAssistant(output.item) then AssistantOutputText(output.item.content) else None;
          if message.Some? {
            lastAgentMessage := message;
          }
        case TurnToolCall(call) =>
          conversation := conversation + [CallToItem(call)];
          needsFollowUp := true;
          inFlight := inFlight + [call];
        case TurnCompleted(_, usage) =>
          totalTokens := if usage.Some? then Some(usage.value.total) else None;
        case _ =>
      }
      if event.TurnTextDelta? {
        sent := sent + [Log.TextDelta(event.delta)];
      } else if !event.TurnCreated? && !event.TurnPlanDone? && !event.TurnCompleted? {
        sent := sent + [Log.OtherTurnEvent];
      } else {
        assert sent + [] == sent;
      }
    }

    /** Reads the stream, then the tool results in call order, whatever order they were ready in. */
    method RunTurn(polls: seq<StreamPoll>, resolve: nat -> ToolOutcome) returns (r: Result<Outcome, TurnError>)
      requires Follows(conversation, [])
      modifies this
      ensures var events := EventsRead(polls);
              var calls := TurnCalls(events);
              var outcomes := Outcomes(resolve, |calls|);
              if !ReachesCompletion(polls) then
                && r == Err(StreamFailure(polls))
                && conversation == old(conversation) + TurnItems(events) && sent == Sent(events)
              else
                && conversation == old(conversation) + TurnItems(events) + ResultItems(outcomes[..OkCount(outcomes)])
                && (r.Ok? <==> OkCount(outcomes) == |calls|)
                && (r.Err? ==> r.error == ToolFailed(outcomes[OkCount(outcomes)].error))
                && sent == Sent(events) + SentForResults(OkCount(outcomes))
                && (r.Ok? ==> r.value == Outcome(calls != [], LastMessage(events), TotalTokens(events)))
    {
      hide TurnItems, TurnCalls, LastMessage, LastStarted, TotalTokens, Sent, EventsRead, ResultItems, OkCount,
        SentForResults;
      ghost var before := conversation;
      ghost var events: seq<TurnEvent> := [];
      var i := 0;
      var completed := false;
      while !completed
        invariant 0 <= i <= |polls| && forall k :: 0 <= k < i ==> polls[k].Event?
        invariant events == EventsOf(polls[..i])
        invariant forall k :: 0 <= k < i - 1 ==> !polls[k].event.TurnCompleted?
        invariant completed <==> i > 0 && polls[i - 1].event.TurnCompleted?
        invariant Follows(before, events)
        decreases |polls| - i, !completed
      {
        if i == |polls| {
          ReadStops(polls, i);
          return Err(StreamClosed);
        }
        if !polls[i].Event? {
          ReadStops(polls, i);
          match polls[i] {
            case Failed(message) => return Err(RuntimeError(message));
            case Closed => return Err(StreamClosed);
            case Cancelled => return Err(Aborted);
          }
        }
        HandleEvent(polls[i].event, before, events);
        events := events + [polls[i].event];
        completed := polls[i].event.TurnCompleted?;
        EventsOfOneMore(polls, i);
        i := i + 1;
      }
      ReadCompletes(polls, i);
      assert EventsRead(polls) == events;
      r := ReleaseResults(resolve);
    }

    /** The drain loop: results are recorded in call order until one is fatal. */
    method ReleaseResults(resolve: nat -> ToolOutcome) returns (r: Result<Outcome, TurnError>)
      modifies this`conversation, this`sent
      ensures var outcomes := Outcomes(resolve, |inFlight|);
              && conversation == old(conversation) + ResultItems(outcomes[..OkCount(outcomes)])
              && sent == old(sent) + SentForResults(OkCount(outcomes))
              && (r.Ok? <==> OkCount(outcomes) == |inFlight|)
              && (r.Err? ==> r.error == ToolFailed(outcomes[OkCount(outcomes)].error))
              && (r.Ok? ==> r.value == Outcome(needsFollowUp, lastAgentMessage, totalTokens))
    {
      hide OkCount;
      ghost var outcomes := Outcomes(resolve, |inFlight|);
      ghost var before, told := conversation, sent;
      var released := 0;
      assert outcomes[..0] == [];
      while released < |inFlight|
        invariant 0 <= released <= |inFlight|
        invariant forall i :: 0 <= i < released ==> outcomes[i].Ok?
        invariant conversation == before + ResultItems(outcomes[..released])
        invariant sent == told + SentForResults(released)
      {
        var outcome := resolve(released);
        assert outcome == outcomes[released];
        if outcome.Err? {
          OkCountIs(outcomes, released);
          return Err(ToolFailed(outcome.error));
        }
        assert outcomes[..released + 1][..released] == outcomes[..released];
        conversation := conversation + [ResultItem(outcome.value)];
        sent := sent + [Log.OtherTurnEvent];
        released := released + 1;
      }
      OkCountIs(outcomes, released);
      r := Ok(Outcome(needsFollowUp, lastAgentMessage, totalTokens));
    }
  }

  lemma OneMoreEvent(events: seq<TurnEvent>, event: TurnEvent)
    ensures TurnItems(events + [event]) == TurnItems(events) + EventItems(event)
    ensures TurnCalls(events + [event]) == TurnCalls(events) + if event.TurnToolCall? then [event.call] else []
    ensures LastMessage(events + [event]) == if MessageOf(event).Some? then MessageOf(event) else LastMessage(events)
    ensures LastStarted(events + [event]) == if event.ItemStarted? then Some(event.handle) else LastStarted(events)
    ensures Sent(events + [event]) == Sent(events) + SentFor(event)
    ensures TotalTokens(events + [event])
         == if !event.TurnCompleted? then TotalTokens(events)
            else if event.usage.Some? then Some(event.usage.value.total) else None
  {
    hide AssistantOutputText;
    assert (events + [event])[..|events|] == events;
  }

  function EventsOf(polls: seq<StreamPoll>): seq<TurnEvent>
    requires forall k :: 0 <= k < |polls| ==> polls[k].Event?
  {
    seq(|polls|, i requires 0 <= i < |polls| => polls[i].event)
  }

  lemma EventsOfOneMore(polls: seq<StreamPoll>, i: nat)
    requires i < |polls| && forall k :: 0 <= k <= i ==> polls[k].Event?
    ensures EventsOf(polls[..i + 1]) == EventsOf(polls[..i]) + [polls[i].event]
  {
  }

  lemma ReadFirst(polls: seq<StreamPoll>)
    requires polls != [] && polls[0].Event? && !polls[0].event.TurnCompleted?
    ensures EventsRead(polls) == [polls[0].event] + EventsRead(polls[1..])
  {
  }

  lemma EventsOfFirst(polls: seq<StreamPoll>)
    requires polls != [] && forall k :: 0 <= k < |polls| ==> polls[k].Event?
    ensures EventsOf(polls) == [polls[0].event] + EventsOf(polls[1..])
  {
  }

  lemma {:induction false} ReadGoesOn(polls: seq<StreamPoll>, i: nat)
    requires i <= |polls| && (forall k :: 0 <= k < i ==> polls[k].Event? && !polls[k].event.TurnCompleted?)
    ensures EventsRead(polls) == EventsOf(polls[..i]) + EventsRead(polls[i..])
  {
    hide EventsRead;
    if i == 0 {
      assert polls[0..] == polls;
    } else {
      var rest := polls[1..];
      ReadGoesOn(rest, i - 1);
      ReadFirst(polls);
      assert rest[i - 1..] == polls[i..];
      EventsOfFirst(polls[..i]);
      assert polls[..i][1..] == rest[..i - 1];
    }
  }

  lemma ReadStops(polls: seq<StreamPoll>, i: nat)
    requires i <= |polls| && (forall k :: 0 <= k < i ==> polls[k].Event? && !polls[k].event.TurnCompleted?)
    requires i < |polls| ==> !polls[i].Event?
    ensures EventsRead(polls) == EventsOf(polls[..i]) && !ReachesCompletion(polls)
  {
    ReadGoesOn(polls, i);
    assert EventsRead(polls[i..]) == [];
  }

  lemma ReadCompletes(polls: seq<StreamPoll>, i: nat)
    requires 0 < i <= |polls| && polls[i - 1].Event? && polls[i - 1].event.TurnCompleted?
    requires forall k :: 0 <= k < i - 1 ==> polls[k].Event? && !polls[k].event.TurnCompleted?
    ensures EventsRead(polls) == EventsOf(polls[..i]) && ReachesCompletion(polls)
  {
    ReadGoesOn(polls, i - 1);
    assert EventsRead(polls[i - 1..]) == [polls[i - 1].event];
    EventsOfOneMore(polls, i - 1);
    hide EventsRead, EventsOf;
  }

  lemma {:induction false} OkCountIs(outcomes: seq<ToolOutcome>, n: nat)
    requires n <= |outcomes| && (forall i :: 0 <= i < n ==> outcomes[i].Ok?)
    requires n < |outcomes| ==> outcomes[n].Err?
    ensures OkCount(outcomes) == n
  {
  }
}
