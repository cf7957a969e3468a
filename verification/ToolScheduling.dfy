/** Tool calls of one turn, run under a shared/exclusive lock, cancelled at any time, and
    released in call order (src/core/src/tools/executor.rs:28-102, src/core/src/kernel.rs:108-163,
    src/core/src/tools/registry.rs:77-100).

    The tool futures are polled in any order the scheduler likes; a run is any sequence of the
    steps below. */
module ToolScheduling {
  import opened Basics
  import opened Transcript
  import opened SemanticEvents
  import opened TurnKernel

  // ---------------------------------------------------------------------------
  // What a tool future resolves to

  /** What a handler returns: output, an error meant for the model, or a fatal error. */
  datatype HandlerResult =
    | HandlerOutput(content: string, contentItems: Option<seq<ContentItem>>, success: Option<bool>)
    | RespondToModel(message: string)
    | Fatal(message: string)

  function HandlerPayload(payload: ToolCallPayload, content: string, items: Option<seq<ContentItem>>,
                          success: Option<bool>): ToolResultPayload {
    if payload.TextInput? then Text(content) else Structured(content, items, success)
  }

  function FailureResponse(call: CallRequest, message: string): CallResult {
    match call.payload
    case TextInput(_) => CallResult(call.callId, call.toolName, Text(message))
    case JsonArguments(_) => CallResult(call.callId, call.toolName, Structured(message, None, Some(false)))
  }

  function AbortedResponse(call: CallRequest): CallResult {
    FailureResponse(call, "aborted by user")
  }

  function Resolve(call: CallRequest, result: HandlerResult): ToolOutcome {
    match result
    case HandlerOutput(content, items, success) =>
      Ok(CallResult(call.callId, call.toolName, HandlerPayload(call.payload, content, items, success)))
    case RespondToModel(message) => Ok(FailureResponse(call, message))
    case Fatal(message) => Err(message)
  }

  /** A result that belongs to a call: its id, its tool, its kind of payload. */
  predicate AnswersCall(call: CallRequest, outcome: ToolOutcome) {
    outcome.Ok? ==>
      && outcome.value.callId == call.callId
      && outcome.value.toolName == call.toolName
      && (outcome.value.payload.Text? <==> call.payload.TextInput?)
  }

  // ---------------------------------------------------------------------------
  // The steps of a turn's tool futures

  datatype Phase = Waiting | Running | Resolved(outcome: ToolOutcome)

  datatype Task = Task(call: CallRequest, exclusive: bool, phase: Phase)

  /** The futures in call order, how many have been released, and the cancellation token. */
  datatype Schedule = Schedule(tasks: seq<Task>, released: nat, cancelled: bool)

  datatype Step =
    | Acquire(i: nat)                        // the lock is taken, the handler starts
    | Finish(i: nat, result: HandlerResult)  // the handler returns, the lock is dropped
    | Abandon(i: nat)                        // the cancelled branch wins, the handler is dropped
    | Cancel                                 // somebody cancels the token
    | Release                                // the first unreleased future is ready

  /** The lock: any number of shared holders, or one exclusive holder. */
  predicate LockFree(tasks: seq<Task>, exclusive: bool) {
    forall j :: 0 <= j < |tasks| && tasks[j].phase.Running? ==> !exclusive && !tasks[j].exclusive
  }

  predicate Enabled(s: Schedule, step: Step) {
    match step
    case Acquire(i) => i < |s.tasks| && s.tasks[i].phase.Waiting? && LockFree(s.tasks, s.tasks[i].exclusive)
    case Finish(i, _) => i < |s.tasks| && s.tasks[i].phase.Running?
    case Abandon(i) => i < |s.tasks| && s.cancelled && !s.tasks[i].phase.Resolved?
    case Cancel => !s.cancelled
    case Release =>
      s.released < |s.tasks| && s.tasks[s.released].phase.Resolved? && s.tasks[s.released].phase.outcome.Ok?
  }

  function SetPhase(tasks: seq<Task>, i: nat, phase: Phase): seq<Task>
    requires i < |tasks|
  {
    tasks[i := tasks[i].(phase := phase)]
  }

  function Apply(s: Schedule, step: Step): Schedule
    requires Enabled(s, step)
  {
    match step
    case Acquire(i) => s.(tasks := SetPhase(s.tasks, i, Running))
    case Finish(i, result) => s.(tasks := SetPhase(s.tasks, i, Resolved(Resolve(s.tasks[i].call, result))))
    case Abandon(i) => s.(tasks := SetPhase(s.tasks, i, Resolved(Ok(AbortedResponse(s.tasks[i].call)))))
    case Cancel => s.(cancelled := true)
    case Release => s.(released := s.released + 1)
  }

  /** `steps` is a run from `s`. */
  predicate IsRun(s: Schedule, steps: seq<Step>)
    decreases |steps|
  {
    steps == [] || (Enabled(s, steps[0]) && IsRun(Apply(s, steps[0]), steps[1..]))
  }

  function After(s: Schedule, steps: seq<Step>): Schedule
    requires IsRun(s, steps)
    decreases |steps|
  {
    if steps == [] then s else After(Apply(s, steps[0]), steps[1..])
  }

  function StartTasks(calls: seq<CallRequest>, exclusive: CallRequest -> bool): Schedule {
    Schedule(seq(|calls|, i requires 0 <= i < |calls| => Task(calls[i], exclusive(calls[i]), Waiting)), 0, false)
  }

  // ---------------------------------------------------------------------------
  // What every step keeps

  /** Running handlers exclude each other where one of them is exclusive; resolved futures answer
      their own call; only resolved futures have been released. */
  ghost predicate Invariant(s: Schedule, calls: seq<CallRequest>) {
    && |s.tasks| == |calls|
    && (forall i :: 0 <= i < |calls| ==> s.tasks[i].call == calls[i])
    && Excluded(s.tasks)
    && (forall i :: 0 <= i < |calls| && s.tasks[i].phase.Resolved? ==> AnswersCall(calls[i], s.tasks[i].phase.outcome))
    && s.released <= |calls|
    && (forall i :: 0 <= i < s.released ==> s.tasks[i].phase.Resolved? && s.tasks[i].phase.outcome.Ok?)
  }

  predicate BothRun(a: Task, b: Task) {
    a.phase.Running? && b.phase.Running?
  }

  ghost predicate Excluded(tasks: seq<Task>) {
    forall i, j :: 0 <= i < |tasks| && 0 <= j < |tasks| && i != j && BothRun(tasks[i], tasks[j]) ==> !tasks[i].exclusive
  }

  lemma StepKeepsInvariant(s: Schedule, calls: seq<CallRequest>, step: Step)
    requires Invariant(s, calls) && Enabled(s, step)
    ensures Invariant(Apply(s, step), calls)
  {
  }

  lemma {:induction false} RunKeepsInvariant(s: Schedule, calls: seq<CallRequest>, steps: seq<Step>)
    requires Invariant(s, calls) && IsRun(s, steps)
    ensures Invariant(After(s, steps), calls)
    decreases |steps|
  {
    hide Invariant, Enabled, Apply;
    if steps != [] {
      StepKeepsInvariant(s, calls, steps[0]);
      RunKeepsInvariant(Apply(s, steps[0]), calls, steps[1..]);
    }
  }

  /** In every reachable state, no handler runs beside an exclusive one. */
  lemma ExclusiveRunsAlone(calls: seq<CallRequest>, exclusive: CallRequest -> bool, steps: seq<Step>, i: nat, j: nat)
    requires IsRun(StartTasks(calls, exclusive), steps)
    requires i < |calls| && j < |calls| && i != j
    ensures var s := After(StartTasks(calls, exclusive), steps);
            && |s.tasks| == |calls|
            && (s.tasks[i].phase.Running? && s.tasks[i].exclusive ==> !s.tasks[j].phase.Running?)
  {
    hide IsRun, After;
    RunKeepsInvariant(StartTasks(calls, exclusive), calls, steps);
  }

  // ---------------------------------------------------------------------------
  // Progress

  function TaskWork(t: Task): nat {
    match t.phase
    case Waiting => 2
    case Running => 1
    case Resolved(_) => 0
  }

  function Work(tasks: seq<Task>): nat {
    if tasks == [] then 0 else Work(tasks[..|tasks| - 1]) + TaskWork(tasks[|tasks| - 1])
  }

  /** What is left to do: unfinished handlers, unreleased results, and a possible cancellation. */
  function Remaining(s: Schedule): int {
    Work(s.tasks) + (|s.tasks| - s.released) + if s.cancelled then 0 else 1
  }

  lemma {:induction false} WorkOfUpdate(tasks: seq<Task>, i: nat, t: Task)
    requires i < |tasks|
    ensures Work(tasks[i := t]) == Work(tasks) - TaskWork(tasks[i]) + TaskWork(t)
  {
    var n := |tasks| - 1;
    if i == n {
      assert tasks[i := t][..n] == tasks[..n];
    } else {
      assert tasks[i := t][..n] == tasks[..n][i := t];
      WorkOfUpdate(tasks[..n], i, t);
    }
  }

  lemma StepUsesWork(s: Schedule, step: Step)
    requires Enabled(s, step)
    ensures Remaining(Apply(s, step)) < Remaining(s)
  {
    hide Work;
    match step
    case Acquire(i) => WorkOfUpdate(s.tasks, i, s.tasks[i].(phase := Running));
    case Finish(i, result) =>
      WorkOfUpdate(s.tasks, i, s.tasks[i].(phase := Resolved(Resolve(s.tasks[i].call, result))));
    case Abandon(i) => WorkOfUpdate(s.tasks, i, s.tasks[i].(phase := Resolved(Ok(AbortedResponse(s.tasks[i].call)))));
    case Cancel =>
    case Release =>
  }

  lemma {:induction false} RunUsesWork(s: Schedule, calls: seq<CallRequest>, steps: seq<Step>)
    requires Invariant(s, calls) && IsRun(s, steps)
    ensures |steps| <= Remaining(s)
    decreases |steps|
  {
    hide Work, Enabled, Apply;
    if steps != [] {
      StepUsesWork(s, steps[0]);
      StepKeepsInvariant(s, calls, steps[0]);
      RunUsesWork(Apply(s, steps[0]), calls, steps[1..]);
    }
  }

  lemma {:induction false} StartWork(tasks: seq<Task>)
    requires forall i :: 0 <= i < |tasks| ==> tasks[i].phase.Waiting?
    ensures Work(tasks) == 2 * |tasks|
  {
    if tasks != [] {
      StartWork(tasks[..|tasks| - 1]);
    }
  }

  lemma StartIsInvariant(calls: seq<CallRequest>, exclusive: CallRequest -> bool)
    ensures Invariant(StartTasks(calls, exclusive), calls)
  {
  }

  /** No run is longer than three steps per call and one cancellation. */
  lemma EveryRunIsShort(calls: seq<CallRequest>, exclusive: CallRequest -> bool, steps: seq<Step>)
    requires IsRun(StartTasks(calls, exclusive), steps)
    ensures |steps| <= 3 * |calls| + 1
  {
    hide IsRun, Work, Invariant;
    var s := StartTasks(calls, exclusive);
    StartIsInvariant(calls, exclusive);
    RunUsesWork(s, calls, steps);
    StartWork(s.tasks);
  }

  /** A run never gets stuck: until all results are out or one is fatal, some future can move. */
  lemma NeverStuck(s: Schedule, calls: seq<CallRequest>) returns (step: Step)
    requires Invariant(s, calls)
    requires s.released < |s.tasks|
    requires s.tasks[s.released].phase.Resolved? ==> s.tasks[s.released].phase.outcome.Ok?
    ensures Enabled(s, step) && !step.Cancel?
  {
    if s.tasks[s.released].phase.Resolved? {
      step := Release;
    } else if j :| 0 <= j < |s.tasks| && s.tasks[j].phase.Running? {
      step := Finish(j, RespondToModel([]));
    } else {
      step := Acquire(s.released);
    }
  }

  // ---------------------------------------------------------------------------
  // The released results, in call order

  /** The outcome of a resolved future. */
  function OutcomeAt(s: Schedule, i: nat): ToolOutcome {
    if i < |s.tasks| && s.tasks[i].phase.Resolved? then s.tasks[i].phase.outcome else Err([])
  }

  /** All results are out, or the next one is fatal: the result loop is over. */
  predicate IsOver(s: Schedule) {
    s.released < |s.tasks| ==> s.tasks[s.released].phase.Resolved? && s.tasks[s.released].phase.outcome.Err?
  }

  /** Whatever order the handlers ran in and whenever they were cancelled: when the result loop is
      over it has released one result per call, in call order, each answering its own call, up to
      the first fatal one. */
  lemma OneResultPerCall(calls: seq<CallRequest>, exclusive: CallRequest -> bool, steps: seq<Step>)
    requires IsRun(StartTasks(calls, exclusive), steps)
    requires IsOver(After(StartTasks(calls, exclusive), steps))
    ensures var s := After(StartTasks(calls, exclusive), steps);
            var outcomes := Outcomes((i: nat) => OutcomeAt(s, i), |calls|);
            && OkCount(outcomes) == s.released
            && forall i :: 0 <= i < s.released ==> AnswersCall(calls[i], outcomes[i])
  {
    hide IsRun, After, AnswersCall;
    StartIsInvariant(calls, exclusive);
    RunKeepsInvariant(StartTasks(calls, exclusive), calls, steps);
    var s := After(StartTasks(calls, exclusive), steps);
    var outcomes := Outcomes((i: nat) => OutcomeAt(s, i), |calls|);
    assert forall i :: 0 <= i < s.released ==> outcomes[i] == s.tasks[i].phase.outcome;
    OkCountIs(outcomes, s.released);
  }

  /** A recorded result that answers a call: its id, its tool, its kind of payload. */
  predicate RecordsAnswer(call: CallRequest, item: TranscriptItem) {
    && item.ToolResult?
    && item.resultCallId == call.callId && item.resultToolName == call.toolName
    && (item.result.Text? <==> call.payload.TextInput?)
  }

  lemma {:induction false} ResultItemsAre(outcomes: seq<ToolOutcome>)
    requires forall i :: 0 <= i < |outcomes| ==> outcomes[i].Ok?
    ensures |ResultItems(outcomes)| == |outcomes|
    ensures forall i :: 0 <= i < |outcomes| ==> ResultItems(outcomes)[i] == ResultItem(outcomes[i].value)
  {
    if outcomes != [] {
      ResultItemsAre(outcomes[..|outcomes| - 1]);
    }
  }

  /** What a run adds to the conversation: the results released so far. */
  function Recorded(calls: seq<CallRequest>, exclusive: CallRequest -> bool, steps: seq<Step>): seq<TranscriptItem>
    requires IsRun(StartTasks(calls, exclusive), steps)
  {
    var s := After(StartTasks(calls, exclusive), steps);
    ResultItems(Outcomes((i: nat) => OutcomeAt(s, i), s.released))
  }

  /** Each recorded item is the answer to the call at its place, and they are those released. */
  lemma OneAnswerPerCall(calls: seq<CallRequest>, exclusive: CallRequest -> bool, steps: seq<Step>)
    requires IsRun(StartTasks(calls, exclusive), steps)
    ensures var results := Recorded(calls, exclusive, steps);
            && |results| == After(StartTasks(calls, exclusive), steps).released <= |calls|
            && forall i :: 0 <= i < |results| ==> RecordsAnswer(calls[i], results[i])
  {
    hide IsRun, After, ResultItems;
    StartIsInvariant(calls, exclusive);
    RunKeepsInvariant(StartTasks(calls, exclusive), calls, steps);
    var s := After(StartTasks(calls, exclusive), steps);
    ResultItemsAre(Outcomes((i: nat) => OutcomeAt(s, i), s.released));
  }

  // ---------------------------------------------------------------------------
  // What is recorded of each call

  /** What the registry answers for a tool it does not have. */
  function UnknownTool(call: CallRequest): HandlerResult {
    match call.payload
    case TextInput(_) => RespondToModel("unsupported custom tool call: " + call.toolName)
    case JsonArguments(_) => RespondToModel("unsupported call: " + call.toolName)
  }

  /** The result says that the call failed. */
  predicate IsFlagged(result: ToolResultPayload) {
    result.Structured? && result.success == Some(false)
  }

  function TextOf(result: ToolResultPayload): string {
    if result.Text? then result.output else result.content
  }

  lemma {:induction false} ResolvedStays(s: Schedule, steps: seq<Step>, i: nat)
    requires IsRun(s, steps) && i < |s.tasks| && s.tasks[i].phase.Resolved?
    ensures var t := After(s, steps);
            |t.tasks| == |s.tasks| && t.tasks[i] == s.tasks[i]
    decreases |steps|
  {
    hide Resolve, LockFree, AbortedResponse;
    if steps != [] {
      ResolvedStays(Apply(s, steps[0]), steps[1..], i);
    }
  }

  /** How a step resolves a call, read off the step and the call. */
  predicate ResolvesTo(step: Step, call: CallRequest, result: ToolResultPayload) {
    match step
    case Finish(_, HandlerOutput(content, items, success)) =>
      result == (if call.payload.TextInput? then Text(content) else Structured(content, items, success))
    case Finish(_, RespondToModel(message)) =>
      result == (if call.payload.TextInput? then Text(message) else Structured(message, None, Some(false)))
    case Abandon(_) =>
      var message := "aborted by user";
      result == (if call.payload.TextInput? then Text(message) else Structured(message, None, Some(false)))
    case _ => false
  }

  predicate ResolvesCall(step: Step) {
    step.Abandon? || (step.Finish? && !step.result.Fatal?)
  }

  lemma ResolvesAs(s: Schedule, step: Step)
    requires Enabled(s, step) && ResolvesCall(step)
    ensures var t := Apply(s, step);
            && step.i < |s.tasks| == |t.tasks| && t.tasks[step.i].call == s.tasks[step.i].call
            && t.tasks[step.i].phase.Resolved? && t.tasks[step.i].phase.outcome.Ok?
            && ResolvesTo(step, s.tasks[step.i].call, t.tasks[step.i].phase.outcome.value.payload)
  {
  }

  lemma {:induction false} ResolvedBy(s: Schedule, steps: seq<Step>, k: nat)
    requires IsRun(s, steps) && k < |steps| && ResolvesCall(steps[k])
    ensures var t := After(s, steps);
            var i := steps[k].i;
            && i < |s.tasks| == |t.tasks|
            && t.tasks[i].phase.Resolved? && t.tasks[i].phase.outcome.Ok?
            && ResolvesTo(steps[k], s.tasks[i].call, t.tasks[i].phase.outcome.value.payload)
    decreases |steps|
  {
    hide ResolvesTo, Resolve, AbortedResponse, LockFree;
    if k == 0 {
      ResolvesAs(s, steps[0]);
      ResolvedStays(Apply(s, steps[0]), steps[1..], steps[0].i);
    } else {
      StepKeepsCalls(s, steps[0]);
      ResolvedBy(Apply(s, steps[0]), steps[1..], k - 1);
    }
  }

  lemma StepKeepsCalls(s: Schedule, step: Step)
    requires Enabled(s, step)
    ensures var t := Apply(s, step);
            |t.tasks| == |s.tasks| && forall i :: 0 <= i < |s.tasks| ==> t.tasks[i].call == s.tasks[i].call
  {
    hide Resolve, AbortedResponse;
  }

  /** On every run, whatever its handler returned and whether it was abandoned: once the result of
      a call is out, the conversation holds it with its content.  That is the handler's output, the
      message of a refusal, or the note that it was aborted; text for a call with text input, and
      structured for a call with JSON arguments. */
  lemma ResultIsRecorded(calls: seq<CallRequest>, exclusive: CallRequest -> bool, steps: seq<Step>, k: nat)
    requires IsRun(StartTasks(calls, exclusive), steps)
    requires k < |steps| && ResolvesCall(steps[k])
    ensures var i := steps[k].i;
            var results := Recorded(calls, exclusive, steps);
            i < |calls| &&
            (i < |results| ==> RecordsAnswer(calls[i], results[i]) && ResolvesTo(steps[k], calls[i], results[i].result))
  {
    hide IsRun, After, ResultItems, ResolvesTo;
    StartIsInvariant(calls, exclusive);
    RunKeepsInvariant(StartTasks(calls, exclusive), calls, steps);
    ResolvedBy(StartTasks(calls, exclusive), steps, k);
    var s := After(StartTasks(calls, exclusive), steps);
    var outcomes := Outcomes((i: nat) => OutcomeAt(s, i), s.released);
    ResultItemsAre(outcomes);
    var i := steps[k].i;
    if i < s.released {
      assert outcomes[i] == s.tasks[i].phase.outcome;
    }
  }

  /** So a call that is refused with a message, or abandoned, is recorded as a failure if and only
      if it has JSON arguments. */
  lemma RefusalIsFlaggedIff(calls: seq<CallRequest>, exclusive: CallRequest -> bool, steps: seq<Step>, k: nat)
    requires IsRun(StartTasks(calls, exclusive), steps)
    requires k < |steps| && (steps[k].Abandon? || (steps[k].Finish? && steps[k].result.RespondToModel?))
    ensures var i := steps[k].i;
            var message := if steps[k].Abandon? then "aborted by user" else steps[k].result.message;
            var results := Recorded(calls, exclusive, steps);
            i < |calls| &&
            (i < |results| ==>
              && RecordsAnswer(calls[i], results[i]) && TextOf(results[i].result) == message
              && (IsFlagged(results[i].result) <==> calls[i].payload.JsonArguments?))
  {
    hide IsRun, Recorded;
    ResultIsRecorded(calls, exclusive, steps, k);
  }

  /** And so is a call to an unknown tool. */
  lemma UnknownToolIsFlaggedIff(calls: seq<CallRequest>, exclusive: CallRequest -> bool, steps: seq<Step>, k: nat,
                                i: nat)
    requires IsRun(StartTasks(calls, exclusive), steps)
    requires k < |steps| && i < |calls| && steps[k] == Finish(i, UnknownTool(calls[i]))
    ensures var results := Recorded(calls, exclusive, steps);
            i < |results| ==>
              && RecordsAnswer(calls[i], results[i])
              && TextOf(results[i].result)
                 == (if calls[i].payload.JsonArguments? then "unsupported call: " else "unsupported custom tool call: ")
                    + calls[i].toolName
              && (IsFlagged(results[i].result) <==> calls[i].payload.JsonArguments?)
  {
    hide IsRun, Recorded, RecordsAnswer, IsFlagged;
    RefusalIsFlaggedIff(calls, exclusive, steps, k);
  }

  // ---------------------------------------------------------------------------
  // Fatal results

  lemma FatalAs(s: Schedule, step: Step)
    requires Enabled(s, step) && step.Finish? && step.result.Fatal?
    ensures var t := Apply(s, step);
            && step.i < |s.tasks| == |t.tasks|
            && t.tasks[step.i].phase == Resolved(Err(step.result.message))
  {
  }

  /** A handler that returns a fatal error: its result, and any behind it, never comes out, and when
      the result loop stops there it stops with this error. */
  lemma {:induction false} FatalStops(s: Schedule, calls: seq<CallRequest>, steps: seq<Step>, k: nat)
    requires Invariant(s, calls) && IsRun(s, steps) && k < |steps| && steps[k].Finish? && steps[k].result.Fatal?
    ensures var t := After(s, steps);
            var i := steps[k].i;
            && i < |calls| == |t.tasks| && t.released <= i
            && OutcomeAt(t, i) == Err(steps[k].result.message)
    decreases |steps|
  {
    hide Resolve, AbortedResponse, LockFree, AnswersCall, Excluded;
    StepKeepsInvariant(s, calls, steps[0]);
    if k == 0 {
      FatalAs(s, steps[0]);
      RunKeepsInvariant(Apply(s, steps[0]), calls, steps[1..]);
      ResolvedStays(Apply(s, steps[0]), steps[1..], steps[0].i);
      hide Apply, Enabled;
    } else {
      hide Apply, Enabled, Invariant;
      FatalStops(Apply(s, steps[0]), calls, steps[1..], k - 1);
    }
  }
}
