/** How a chat stream ends, read off its polls alone: with which error, or completed with which
    usage (src/llm/src/api/sse/chat.rs:92-434). */
module ChatEnding {
  import opened Basics
  import opened Transcript
  import opened ChatWire
  import opened ChatAssembler
  import opened ChatProtocol
  import opened ChatAgreement
  import opened OneChoice
  import opened ChatFailures
  import ToolCallTable

  // ---------------------------------------------------------------------------
  // What a poll brings

  predicate FirstFails(choices: seq<Choice>, i: nat, error: ApiError) {
    i < |choices| && ChatFailures.FailsWith(choices[i], error) && forall j :: 0 <= j < i ==> !Fails(choices[j])
  }

  /** The first failing choice fails with this error. */
  ghost predicate ChoicesFailWith(choices: seq<Choice>, error: ApiError) {
    exists i: nat :: FirstFails(choices, i, error)
  }

  predicate IsFinish(choice: Choice) {
    choice.finishReason == Some("stop") || choice.finishReason == Some("tool_calls")
  }

  function ChoicesOf(poll: Poll): seq<Choice> {
    if poll.Data? && poll.data.ChunkData? then OrEmpty(poll.data.chunk.choices) else []
  }

  /** The poll fails with this error: the transport's, the timeout, or its first failing choice. */
  ghost predicate FailsWith(poll: Poll, error: ApiError) {
    match poll
    case TransportError(message) => error == StreamError(message)
    case TimedOut => error == StreamError("idle timeout waiting for SSE")
    case _ => ChoicesFailWith(ChoicesOf(poll), error)
  }

  predicate AnyFails(choices: seq<Choice>) {
    exists i :: 0 <= i < |choices| && Fails(choices[i])
  }

  predicate AnyFinish(choices: seq<Choice>) {
    exists i :: 0 <= i < |choices| && IsFinish(choices[i])
  }

  predicate IsFailing(poll: Poll) {
    poll.TransportError? || poll.TimedOut? || AnyFails(ChoicesOf(poll))
  }

  predicate EndsStream(poll: Poll) {
    poll.EndOfStream? || poll == Data(DoneSentinel)
  }

  /** A chunk with a terminal finish reason. */
  predicate Finishes(poll: Poll) {
    !AnyFails(ChoicesOf(poll)) && AnyFinish(ChoicesOf(poll))
  }

  predicate OnlyContent(poll: Poll) {
    !IsFailing(poll) && !EndsStream(poll) && !AnyFinish(ChoicesOf(poll))
  }

  function UsageIn(poll: Poll): Option<TokenUsage> {
    if poll.Data? && poll.data.ChunkData? then poll.data.chunk.usage else None
  }

  function LastUsage(polls: seq<Poll>): Option<TokenUsage> {
    if polls == [] then None
    else
      var n := |polls| - 1;
      if UsageIn(polls[n]).Some? then UsageIn(polls[n]) else LastUsage(polls[..n])
  }

  // ---------------------------------------------------------------------------
  // Where a stream ends

  /** The first `n` polls bring nothing but content. */
  predicate OnlyContentUpTo(polls: seq<Poll>, n: nat) {
    n <= |polls| && forall j :: 0 <= j < n ==> OnlyContent(polls[j])
  }

  ghost predicate FailsAt(polls: seq<Poll>, k: nat, error: ApiError) {
    k < |polls| && OnlyContentUpTo(polls, k) && FailsWith(polls[k], error)
  }

  /** Behind a finish reason: data without usage is waited through. */
  predicate Waits(poll: Poll) {
    poll.Data? && poll != Data(DoneSentinel) && UsageIn(poll).None?
  }

  /** The finish reason comes at `f`, without usage so far, and nothing ends the wait before `n`. */
  predicate WaitsFrom(polls: seq<Poll>, f: nat, n: nat) {
    && f < n <= |polls| && OnlyContentUpTo(polls, f) && Finishes(polls[f]) && LastUsage(polls[..f + 1]).None?
    && forall j :: f < j < n ==> Waits(polls[j])
  }

  /** The stream is read up to `n` and completes there: it ends, or its finish reason has come with
      or behind a usage, or the wait for one is over, whatever ends it. */
  ghost predicate CompletesAt(polls: seq<Poll>, n: nat) {
    n <= |polls| &&
    (|| (n == |polls| && OnlyContentUpTo(polls, n))
     || (0 < n && OnlyContentUpTo(polls, n - 1) && EndsStream(polls[n - 1]))
     || (0 < n && OnlyContentUpTo(polls, n - 1) && Finishes(polls[n - 1]) && LastUsage(polls[..n]).Some?)
     || (exists f: nat :: WaitEndsAt(polls, f, n)))
  }

  /** The wait for a usage is over: the stream ends, or the last poll is not waited through. */
  predicate WaitEndsAt(polls: seq<Poll>, f: nat, n: nat) {
    || (n == |polls| && WaitsFrom(polls, f, n))
    || (0 < n <= |polls| && WaitsFrom(polls, f, n - 1) && !Waits(polls[n - 1]))
  }

  // ---------------------------------------------------------------------------
  // Choices and chunks

  lemma AppendKeepsUsage(a: Assembler, choice: Choice)
    ensures var b := ApplyContent(a, choice);
            b.usage == a.usage && b.closed == a.closed && b.pending == a.pending
  {
    hide AppendReasoning, AppendAssistantAll, ToolCallTable.AddAll;
    if choice.delta.Some? {
      var delta := choice.delta.value;
      ReasoningKeepsUsage(a, ReasoningTextOf(delta.reasoning));
      TextsKeepUsage(AppendReasoning(a, ReasoningTextOf(delta.reasoning)), StreamedTexts(delta.content));
    }
    if choice.message.Some? {
      var d := if choice.delta.Some? then ApplyDelta(a, choice.delta.value) else a;
      ReasoningKeepsUsage(d, ReasoningTextOf(choice.message.value.reasoning));
    }
  }

  lemma ReasoningKeepsUsage(a: Assembler, text: Option<string>)
    ensures var b := AppendReasoning(a, text);
            b.usage == a.usage && b.closed == a.closed && b.pending == a.pending
  {
  }

  lemma {:induction false} TextsKeepUsage(a: Assembler, texts: seq<string>)
    ensures var b := AppendAssistantAll(a, texts);
            b.usage == a.usage && b.closed == a.closed && b.pending == a.pending
  {
    hide PlanDeltasOf, PlanText.Run;
    if texts != [] {
      TextsKeepUsage(a, texts[..|texts| - 1]);
    }
  }

  lemma FinishKeepsUsage(a: Assembler, reason: Option<string>)
    ensures var (b, terminal) := ApplyFinish(a, reason);
            && b.usage == a.usage && b.pending == a.pending
            && (reason == Some("length") ==> b == Fail(a, ContextWindowExceeded) && !terminal)
            && (reason != Some("length") ==> b.closed == a.closed)
            && (terminal <==> reason == Some("stop") || reason == Some("tool_calls"))
            && (!terminal && reason != Some("length") ==> b == a)
  {
    hide CloseAssistant, CloseReasoning, ToolCallTable.CallItems;
    ClosingKeepsTheRest(a);
  }

  /** What one choice does to an open assembler. */
  lemma ChoiceEnds(a: Assembler, choice: Choice)
    requires !a.closed
    ensures var (b, terminal) := ApplyChoice(a, choice);
            && b.usage == a.usage && b.pending == a.pending
            && (b.closed <==> Fails(choice))
            && (forall error :: ChatFailures.FailsWith(choice, error) ==>
                  b.sent != [] && b.sent[|b.sent| - 1] == Err(error))
            && (!Fails(choice) ==> (terminal <==> IsFinish(choice)))
            && (!IsFinish(choice) ==> DoneItems(b.sent) == DoneItems(a.sent))
  {
    hide ApplyContent, ApplyFinish, RefusalError, Fails, ChatFailures.FailsWith, DoneItems;
    forall error ensures ChatFailures.FailsWith(choice, error)
       <==> (RefusalError(choice) == Some(error)
             || (RefusalError(choice).None? && choice.finishReason == Some("length")
                 && error == ContextWindowExceeded))
    {
      RefusalOrLength(choice, error);
    }
    RefusalOrLength(choice, ContextWindowExceeded);
    AppendKeepsUsage(a, choice);
    ContentFinishesNothing(a, choice);
    var c := ApplyContent(a, choice);
    FinishKeepsUsage(c, choice.finishReason);
    if RefusalError(choice).Some? {
      ErrorFinishesNothing(a.sent, RefusalError(choice).value);
    } else {
      ErrorFinishesNothing(c.sent, ContextWindowExceeded);
    }
  }

  lemma ErrorFinishesNothing(log: seq<Output>, error: ApiError)
    ensures DoneItems(log + [Err(error)]) == DoneItems(log)
  {
    DoneItemsOne(log, Err(error));
    assert DoneItems(log) + [] == DoneItems(log);
  }

  /** What the choices of a chunk do to an open assembler. */
  lemma {:induction false} ChoicesEnd(a: Assembler, choices: seq<Choice>)
    requires !a.closed
    ensures var (b, terminal) := ApplyChoices(a, choices);
            && b.usage == a.usage && b.pending == a.pending
            && (b.closed <==> AnyFails(choices))
            && (forall error :: ChoicesFailWith(choices, error) ==>
                  b.closed && b.sent != [] && b.sent[|b.sent| - 1] == Err(error))
            && (!AnyFails(choices) ==> (terminal <==> AnyFinish(choices)))
            && (!AnyFinish(choices) ==> DoneItems(b.sent) == DoneItems(a.sent))
  {
    hide ApplyChoice, Fails, ChatFailures.FailsWith, IsFinish, DoneItems;
    if choices == [] {
      NoChoices();
    } else {
      hide AnyFails, AnyFinish, ChoicesFailWith;
      var n := |choices| - 1;
      ChoicesEnd(a, choices[..n]);
      var b := ApplyChoices(a, choices[..n]).0;
      assert choices == choices[..n] + [choices[n]];
      OneMoreChoice(choices[..n], choices[n]);
      FailingAny(choices[..n]);
      FailsIff(choices[n]);
      if !b.closed {
        ChoiceEnds(b, choices[n]);
      }
    }
  }

  lemma FailingAny(choices: seq<Choice>)
    ensures forall error :: ChoicesFailWith(choices, error) ==> AnyFails(choices)
  {
    hide Fails, ChatFailures.FailsWith;
    forall error | ChoicesFailWith(choices, error)
      ensures AnyFails(choices)
    {
      var i: nat :| FirstFails(choices, i, error);
      FailsIff(choices[i]);
    }
  }

  lemma OneMoreChoice(choices: seq<Choice>, choice: Choice)
    ensures AnyFails(choices + [choice]) <==> AnyFails(choices) || Fails(choice)
    ensures AnyFinish(choices + [choice]) <==> AnyFinish(choices) || IsFinish(choice)
    ensures forall error ::
      ChoicesFailWith(choices + [choice], error)
      <==> ChoicesFailWith(choices, error) || (!AnyFails(choices) && ChatFailures.FailsWith(choice, error))
  {
    hide Fails, ChatFailures.FailsWith, IsFinish;
    var all := choices + [choice];
    assert all[|choices|] == choice && forall i :: 0 <= i < |choices| ==> all[i] == choices[i];
    forall error
      ensures ChoicesFailWith(all, error)
         <==> ChoicesFailWith(choices, error) || (!AnyFails(choices) && ChatFailures.FailsWith(choice, error))
    {
      if i: nat :| FirstFails(all, i, error) {
        if i < |choices| {
          assert FirstFails(choices, i, error);
        }
      }
      if i: nat :| FirstFails(choices, i, error) {
        assert FirstFails(all, i, error);
      }
      if !AnyFails(choices) && ChatFailures.FailsWith(choice, error) {
        assert FirstFails(all, |choices|, error);
      }
    }
  }

  // ---------------------------------------------------------------------------
  // Reading content

  predicate EndsIn(a: Assembler, o: Output) {
    a.closed && a.sent != [] && a.sent[|a.sent| - 1] == o
  }

  /** Nothing has ended, and nothing is finished. */
  predicate IsReading(a: Assembler, usage: Option<TokenUsage>) {
    !a.closed && !a.pending && a.usage == usage && DoneItems(a.sent) == []
  }

  predicate IsWaiting(a: Assembler) {
    !a.closed && a.pending && a.usage.None?
  }

  lemma FlushEnds(a: Assembler)
    ensures EndsIn(FlushAndComplete(a), Ok(Completed([], a.usage)))
  {
    hide CloseAssistant, CloseReasoning;
    ClosingKeepsTheRest(a);
  }

  function Newer(usage: Option<TokenUsage>, poll: Poll): Option<TokenUsage> {
    if UsageIn(poll).Some? then UsageIn(poll) else usage
  }

  /** One poll of a stream that is being read. */
  lemma PollEnds(a: Assembler, poll: Poll, usage: Option<TokenUsage>)
    requires IsReading(a, usage)
    ensures var b := ApplyPoll(a, poll);
            && (OnlyContent(poll) ==> IsReading(b, Newer(usage, poll)))
            && (EndsStream(poll) ==> EndsIn(b, Ok(Completed([], usage))))
            && (Finishes(poll) ==>
                  if Newer(usage, poll).Some? then EndsIn(b, Ok(Completed([], Newer(usage, poll)))) else IsWaiting(b))
            && (forall error :: FailsWith(poll, error) ==> EndsIn(b, Err(error)))
            && (IsFailing(poll) && !AnyFinish(ChoicesOf(poll)) ==> DoneItems(b.sent) == [])
  {
    hide FlushAndComplete, ApplyChoices, DoneItems, AnyFails, AnyFinish, ChoicesFailWith;
    FlushEnds(a);
    NoChoices();
    match poll
    case TransportError(message) => ErrorFinishesNothing(a.sent, StreamError(message));
    case TimedOut => ErrorFinishesNothing(a.sent, StreamError(IDLE_TIMEOUT));
    case Data(ChunkData(chunk)) =>
      var u := if chunk.usage.Some? then a.(usage := chunk.usage) else a;
      if chunk.choices.Some? {
        ChoicesEnd(u, chunk.choices.value);
        FlushEnds(ApplyChoices(u, chunk.choices.value).0);
        assert forall error :: FailsWith(poll, error) <==> ChoicesFailWith(chunk.choices.value, error);
      }
    case _ =>
  }

  lemma NoChoices()
    ensures !AnyFails([]) && !AnyFinish([]) && forall error :: !ChoicesFailWith([], error)
  {
  }

  /** One poll of a stream that waits for its usage. */
  lemma PollEndsWait(a: Assembler, poll: Poll)
    requires IsWaiting(a)
    ensures var b := ApplyPoll(a, poll);
            if Waits(poll) then IsWaiting(b) else EndsIn(b, Ok(Completed([], UsageIn(poll))))
  {
    hide FlushAndComplete, ApplyChoices;
    FlushEnds(a);
    if poll.Data? && poll.data.ChunkData? {
      FlushEnds(a.(usage := poll.data.chunk.usage));
    }
  }

  lemma PollsOneMore(polls: seq<Poll>, n: nat)
    requires n < |polls|
    ensures var b := ApplyPolls(START, polls[..n]);
            ApplyPolls(START, polls[..n + 1]) == if b.closed then b else ApplyPoll(b, polls[n])
    ensures LastUsage(polls[..n + 1]) == Newer(LastUsage(polls[..n]), polls[n])
  {
    hide ApplyPoll;
    assert polls[..n + 1][..n] == polls[..n];
  }

  lemma {:induction false} ReadsContent(polls: seq<Poll>, n: nat)
    requires OnlyContentUpTo(polls, n)
    ensures IsReading(ApplyPolls(START, polls[..n]), LastUsage(polls[..n]))
  {
    if n == 0 {
      assert polls[..0] == [];
    } else {
      hide ApplyPoll, ApplyPolls, OnlyContent, IsReading, LastUsage;
      ReadsContent(polls, n - 1);
      PollsOneMore(polls, n - 1);
      PollEnds(ApplyPolls(START, polls[..n - 1]), polls[n - 1], LastUsage(polls[..n - 1]));
      ReadingIsOpen(ApplyPolls(START, polls[..n - 1]), LastUsage(polls[..n - 1]));
    }
  }

  lemma ReadingIsOpen(a: Assembler, usage: Option<TokenUsage>)
    requires IsReading(a, usage)
    ensures !a.closed && a.usage == usage
  {
  }

  lemma {:induction false} WaitsOn(polls: seq<Poll>, f: nat, n: nat)
    requires WaitsFrom(polls, f, n)
    ensures IsWaiting(ApplyPolls(START, polls[..n])) && LastUsage(polls[..n]).None?
    decreases n
  {
    hide ApplyPoll, ApplyPolls, IsReading, LastUsage, Finishes, OnlyContent;
    PollsOneMore(polls, n - 1);
    if n == f + 1 {
      ReadsContent(polls, f);
      ReadingIsOpen(ApplyPolls(START, polls[..f]), LastUsage(polls[..f]));
      PollEnds(ApplyPolls(START, polls[..f]), polls[f], LastUsage(polls[..f]));
    } else {
      assert WaitsFrom(polls, f, n - 1);
      WaitsOn(polls, f, n - 1);
      PollEndsWait(ApplyPolls(START, polls[..n - 1]), polls[n - 1]);
    }
  }

  /** A run that has ended stays as it is. */
  lemma EndedRun(polls: seq<Poll>, n: nat, o: Output)
    requires n <= |polls| && EndsIn(ApplyPolls(START, polls[..n]), o)
    ensures EndsIn(ProcessAll(polls), o) && ProcessAll(polls) == ApplyPolls(START, polls[..n])
  {
    hide ApplyPolls, FlushAndComplete;
    ClosedPolls(START, polls, n);
  }

  lemma OpenRun(polls: seq<Poll>)
    requires !ApplyPolls(START, polls).closed
    ensures EndsIn(ProcessAll(polls), Ok(Completed([], ApplyPolls(START, polls).usage)))
  {
    hide ApplyPolls, FlushAndComplete;
    FlushEnds(ApplyPolls(START, polls));
  }

  lemma FailsThere(polls: seq<Poll>, k: nat, error: ApiError)
    requires FailsAt(polls, k, error)
    ensures EndsIn(ProcessAll(polls), Err(error))
    ensures !AnyFinish(ChoicesOf(polls[k])) ==> DoneItems(ProcessAll(polls).sent) == []
  {
    hide ApplyPoll, ApplyPolls, IsReading, LastUsage, OnlyContent, FailsWith, ProcessAll, DoneItems;
    ReadsContent(polls, k);
    ReadingIsOpen(ApplyPolls(START, polls[..k]), LastUsage(polls[..k]));
    PollsOneMore(polls, k);
    PollEnds(ApplyPolls(START, polls[..k]), polls[k], LastUsage(polls[..k]));
    FailingFails(polls[k], error);
    EndedRun(polls, k + 1, Err(error));
  }

  lemma FailingFails(poll: Poll, error: ApiError)
    requires FailsWith(poll, error)
    ensures IsFailing(poll)
  {
    if !poll.TransportError? && !poll.TimedOut? {
      var i: nat :| FirstFails(ChoicesOf(poll), i, error);
      FailsIff(ChoicesOf(poll)[i]);
    }
  }

  lemma CompletesThere(polls: seq<Poll>, n: nat)
    requires CompletesAt(polls, n)
    ensures EndsIn(ProcessAll(polls), Ok(Completed([], LastUsage(polls[..n]))))
  {
    hide ApplyPoll, ApplyPolls, IsReading, LastUsage, OnlyContent, ProcessAll, Finishes, EndsStream, Waits;
    assert polls[..|polls|] == polls;
    if n == |polls| && OnlyContentUpTo(polls, n) {
      ReadsContent(polls, n);
      ReadingIsOpen(ApplyPolls(START, polls), LastUsage(polls));
      OpenRun(polls);
    } else if 0 < n && OnlyContentUpTo(polls, n - 1)
              && (EndsStream(polls[n - 1]) || (Finishes(polls[n - 1]) && LastUsage(polls[..n]).Some?)) {
      LastPollEnds(polls, n);
    } else {
      var f: nat :| WaitEndsAt(polls, f, n);
      if n == |polls| && WaitsFrom(polls, f, n) {
        WaitsOn(polls, f, n);
        OpenRun(polls);
      } else {
        WaitsOn(polls, f, n - 1);
        PollsOneMore(polls, n - 1);
        PollEndsWait(ApplyPolls(START, polls[..n - 1]), polls[n - 1]);
        EndedRun(polls, n, Ok(Completed([], UsageIn(polls[n - 1]))));
      }
    }
  }

  lemma LastPollEnds(polls: seq<Poll>, n: nat)
    requires 0 < n <= |polls| && OnlyContentUpTo(polls, n - 1)
    requires EndsStream(polls[n - 1]) || (Finishes(polls[n - 1]) && LastUsage(polls[..n]).Some?)
    ensures EndsIn(ProcessAll(polls), Ok(Completed([], LastUsage(polls[..n]))))
  {
    hide ApplyPoll, ApplyPolls, IsReading, LastUsage, OnlyContent, ProcessAll, Finishes, ChoicesOf;
    assert polls[..n - 1 + 1] == polls[..n];
    ReadsContent(polls, n - 1);
    ReadingIsOpen(ApplyPolls(START, polls[..n - 1]), LastUsage(polls[..n - 1]));
    PollsOneMore(polls, n - 1);
    PollEnds(ApplyPolls(START, polls[..n - 1]), polls[n - 1], LastUsage(polls[..n - 1]));
    EndedRun(polls, n, Ok(Completed([], LastUsage(polls[..n]))));
  }

  // ---------------------------------------------------------------------------
  // Every run ends somewhere

  /** Where the wait behind a finish reason ends. */
  lemma {:induction false} WaitEnds(polls: seq<Poll>, f: nat, m: nat) returns (n: nat)
    requires WaitsFrom(polls, f, m)
    ensures CompletesAt(polls, n)
    decreases |polls| - m
  {
    hide Waits, Finishes, LastUsage, OnlyContentUpTo, EndsStream;
    if m == |polls| {
      n := m;
      assert WaitEndsAt(polls, f, n);
    } else if Waits(polls[m]) {
      n := WaitEnds(polls, f, m + 1);
    } else {
      n := m + 1;
      assert WaitEndsAt(polls, f, n);
    }
  }

  lemma {:induction false} EndsSomewhere(polls: seq<Poll>, m: nat) returns (n: nat, error: ApiError)
    requires OnlyContentUpTo(polls, m)
    ensures CompletesAt(polls, n) || FailsAt(polls, n, error)
    decreases |polls| - m
  {
    error := ContextWindowExceeded;
    if m == |polls| {
      n := m;
    } else if OnlyContent(polls[m]) {
      n, error := EndsSomewhere(polls, m + 1);
    } else if IsFailing(polls[m]) {
      n := m;
      error := FailureOf(polls[m]);
    } else {
      hide OnlyContent, LastUsage, Waits, IsFailing;
      NotFailing(polls[m]);
      n := m + 1;
      if !EndsStream(polls[m]) && LastUsage(polls[..n]).None? {
        assert WaitsFrom(polls, m, n);
        n := WaitEnds(polls, m, n);
      }
    }
  }

  lemma NotFailing(poll: Poll)
    requires !OnlyContent(poll) && !IsFailing(poll)
    ensures EndsStream(poll) || Finishes(poll)
  {
  }

  lemma FailureOf(poll: Poll) returns (error: ApiError)
    requires IsFailing(poll)
    ensures FailsWith(poll, error)
  {
    if poll.TransportError? {
      error := StreamError(poll.message);
    } else if poll.TimedOut? {
      error := StreamError("idle timeout waiting for SSE");
    } else {
      hide Fails, ChoicesOf;
      var choices := ChoicesOf(poll);
      var i :| 0 <= i < |choices| && Fails(choices[i]);
      error := FirstFailure(choices, i);
    }
  }

  lemma {:induction false} FirstFailure(choices: seq<Choice>, i: nat) returns (error: ApiError)
    requires i < |choices| && Fails(choices[i])
    ensures exists k: nat :: FirstFails(choices, k, error)
  {
    hide Fails, ChatFailures.FailsWith;
    if k :| 0 <= k < i && Fails(choices[k]) {
      error := FirstFailure(choices, k);
    } else {
      FailsIff(choices[i]);
      error :| ChatFailures.FailsWith(choices[i], error);
      assert FirstFails(choices, i, error);
    }
  }

  // ---------------------------------------------------------------------------
  // The theorems

  /** A run ends with an error if and only if some poll fails with it before anything else ends the
      reading: a transport error, the idle timeout, a refusal, the content filter or the length,
      with no terminal finish reason before. */
  lemma EndsWithErrorIff(polls: seq<Poll>, error: ApiError)
    ensures var log := ProcessAll(polls).sent;
            log != [] && (log[|log| - 1] == Err(error) <==> exists k: nat :: FailsAt(polls, k, error))
  {
    hide ProcessAll, FailsAt, CompletesAt, LastUsage;
    var n, found := EndsFrom(polls);
    if CompletesAt(polls, n) {
      CompletesThere(polls, n);
    } else {
      FailsThere(polls, n, found);
    }
    if k: nat :| FailsAt(polls, k, error) {
      FailsThere(polls, k, error);
    }
  }

  lemma EndsFrom(polls: seq<Poll>) returns (n: nat, error: ApiError)
    ensures CompletesAt(polls, n) || FailsAt(polls, n, error)
  {
    n, error := EndsSomewhere(polls, 0);
  }

  /** It ends with a completion if and only if it completes at some place, and then the completion
      carries the last usage received up to there. */
  lemma CompletesIff(polls: seq<Poll>, usage: Option<TokenUsage>)
    ensures var log := ProcessAll(polls).sent;
            && log != []
            && (log[|log| - 1] == Ok(Completed([], usage))
                <==> exists n: nat :: CompletesAt(polls, n) && usage == LastUsage(polls[..n]))
            && (Completes(log) <==> exists n: nat :: CompletesAt(polls, n))
  {
    hide ProcessAll, FailsAt, LastUsage, OnlyContentUpTo, EndsStream, Finishes, WaitsFrom, Waits;
    var n, found := EndsFrom(polls);
    if CompletesAt(polls, n) {
      CompletesThere(polls, n);
    } else {
      FailsThere(polls, n, found);
    }
    forall m: nat | CompletesAt(polls, m)
      ensures EndsIn(ProcessAll(polls), Ok(Completed([], LastUsage(polls[..m]))))
    {
      CompletesThere(polls, m);
    }
  }

  /** A run that fails before any finish reason has finished nothing. */
  lemma FailureFinishesNothing(polls: seq<Poll>, k: nat, error: ApiError)
    requires FailsAt(polls, k, error) && !AnyFinish(ChoicesOf(polls[k]))
    ensures DoneItems(ProcessAll(polls).sent) == []
  {
    hide ProcessAll, FailsAt, DoneItems;
    FailsThere(polls, k, error);
  }
}
