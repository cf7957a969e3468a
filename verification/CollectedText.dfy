/** Which turn's text is collected.  The collecting loop takes the first turn that needs no
    follow-up; `ask_once` promises the text of the last one.  Over every run of a session the two
    are the same exactly if no input is drained and no cancellation seen behind a turn that needs
    no follow-up, and nobody can bring that about in the fresh session of `ask_once`
    (src/core/src/manager.rs:27-32, src/core/src/session.rs:184-248, 429-452). */
module CollectedText {
  import opened Basics
  import opened Transcript
  import opened SessionLog
  import opened SessionState
  import opened Session
  import opened SessionRuns

  // ---------------------------------------------------------------------------
  // How often a submission is decided

  /** How many events decide a submission. */
  function Deciders(events: seq<SessionEvent>): nat {
    if events == [] then 0
    else Deciders(events[..|events| - 1]) + if Decides(events[|events| - 1]) then 1 else 0
  }

  /** The last turn of the submission so far is decided and nothing has set it going again. */
  function Decided(pc: Pc): nat {
    match pc
    case Finished(followUp) => if followUp then 0 else 1
    case Draining(_, bootstrap) => if bootstrap then 0 else 1
    case Releasing => 1
    case SendingIdle => 1
    case _ => 0
  }

  function DecidedNow(s: Session, id: nat): nat {
    if id in s.drivers then Decided(s.drivers[id].pc)
    else if id in s.submitted && id !in s.starters then 1
    else 0
  }

  /** Behind a turn that needs no follow-up, the driver drains an input or sees its cancellation. */
  predicate Resumes(s: Session, step: Step, id: nat) {
    && IsDriveOf(step, id) && id in s.drivers
    && match s.drivers[id].pc
       case Finished(followUp) => !followUp && id in s.cancelled
       case Draining(queue, bootstrap) => !bootstrap && Flatten(QueueOf(s.locked, queue)) != []
       case _ => false
  }

  /** How often a submission goes on behind a turn that needs no follow-up. */
  function Resumptions(s: Session, steps: seq<Step>, id: nat): nat
    requires IsRun(s, steps)
    decreases |steps|
  {
    if steps == [] then 0
    else (if Resumes(s, steps[0], id) then 1 else 0) + Resumptions(Apply(s, steps[0]), steps[1..], id)
  }

  lemma DecidersOneMore(events: seq<SessionEvent>, sent: seq<SessionEvent>)
    requires |sent| <= 1
    ensures Deciders(events + sent) == Deciders(events) + if sent != [] && Decides(sent[0]) then 1 else 0
  {
    if sent == [] {
      assert events + sent == events;
    } else {
      assert (events + sent)[..|events|] == events;
    }
  }

  /** A move decides the submission, or sets it going again, or neither. */
  lemma MoveDecides(s: Session, id: nat, choice: Choice)
    requires Enabled(s, Drive(id, choice)) && IsFed(s.drivers[id])
    ensures var d := s.drivers[id];
            var m := MoveOf(s.locked, id, d, id in s.cancelled, choice);
            && |m.sent| <= 1
            && (if m.sent != [] && Decides(m.sent[0]) then 1 else 0) + Decided(d.pc)
               == (if Resumes(s, Drive(id, choice), id) then 1 else 0)
                  + if m.driver.Some? then Decided(m.driver.value.pc) else 1
  {
    hide Flatten;
  }

  /** One step keeps the account: deciding events are the resumptions and the decision in force. */
  lemma StepKeepsAccount(s: Session, step: Step, id: nat)
    requires OneLive(s) && RunFits(s, id) && Enabled(s, step)
    ensures Deciders(Of(Apply(s, step).log, id)) - DecidedNow(Apply(s, step), id)
         == Deciders(Of(s.log, id)) - DecidedNow(s, id) + if Resumes(s, step, id) then 1 else 0
  {
    hide MoveOf, MayMove, Of, Deciders, IsFed, InputKept, AppendedFrom, Decided;
    if IsDriveOf(step, id) {
      OwnMoveSends(s, id, step.choice);
      MoveDecides(s, id, step.choice);
      DecidersOneMore(Of(s.log, id), MoveOf(s.locked, id, s.drivers[id], id in s.cancelled, step.choice).sent);
    } else {
      OthersSendNothing(s, step, id);
      OthersKeepDecision(s, step, id);
    }
  }

  lemma OthersKeepDecision(s: Session, step: Step, id: nat)
    requires OneLive(s) && Enabled(s, step) && !IsDriveOf(step, id)
    ensures DecidedNow(Apply(s, step), id) == DecidedNow(s, id)
  {
    hide MoveOf, MayMove, Tagged;
  }

  lemma {:induction false} RunKeepsAccount(s: Session, steps: seq<Step>, id: nat, base: seq<TranscriptItem>)
    requires Invariant(s, base) && IsRun(s, steps)
    ensures Deciders(Of(After(s, steps).log, id)) - DecidedNow(After(s, steps), id)
         == Deciders(Of(s.log, id)) - DecidedNow(s, id) + Resumptions(s, steps, id)
    decreases |steps|
  {
    hide Apply, Enabled, OneLive, RunFits, Conserves, Records, FitsLog, Of, Deciders, DecidedNow, Resumes;
    if steps != [] {
      StepKeepsAccount(s, steps[0], id);
      StepKeepsInvariant(s, steps[0], base);
      RunKeepsAccount(Apply(s, steps[0]), steps[1..], id, base);
    }
  }

  /** In every reachable session a submission has been decided once for every time it went on
      behind a decision, and once more if it has not gone on since. */
  lemma DecisionsAreCounted(base: seq<TranscriptItem>, steps: seq<Step>, id: nat)
    requires IsRun(New(base), steps)
    ensures var s := After(New(base), steps);
            Deciders(Of(s.log, id)) == Resumptions(New(base), steps, id) + DecidedNow(s, id)
  {
    hide IsRun, After, Of, Resumptions, Invariant;
    NewIsInvariant(base);
    NewIsUndecided(base, id);
    RunKeepsAccount(New(base), steps, id, base);
  }

  lemma NewIsUndecided(base: seq<TranscriptItem>, id: nat)
    ensures Deciders(Of(New(base).log, id)) == 0 && DecidedNow(New(base), id) == 0
  {
    OneEntry([], StatusChanged(Idle), id);
    assert [] + [Entry(None, StatusChanged(Idle))] == [Entry(None, StatusChanged(Idle))];
  }

  // ---------------------------------------------------------------------------
  // The last turn

  /** A complete submission ends with a deciding event and Idle. */
  lemma EndsDecided(events: seq<SessionEvent>)
    requires Watch(events) == Some(Over)
    ensures var n := |events|;
            2 <= n && events[n - 1] == StatusChanged(Idle) && Decides(events[n - 2])
  {
    var n := |events|;
    assert Watch(events[..n - 1]).Some?;
    assert events[..n - 1] != [];
    assert events[..n - 1][n - 2] == events[n - 2];
  }

  /** Only one event decides exactly if none before the last one does. */
  lemma {:induction false} DecidedOnceIff(events: seq<SessionEvent>, i: nat)
    requires i < |events| && Decides(events[i]) && forall k :: i < k < |events| ==> !Decides(events[k])
    ensures 1 <= Deciders(events)
    ensures Deciders(events) == 1 <==> forall k :: 0 <= k < i ==> !Decides(events[k])
  {
    var n := |events| - 1;
    if i < n {
      DecidedOnceIff(events[..n], i);
    } else {
      NoDeciders(events[..n]);
    }
  }

  lemma {:induction false} NoDeciders(events: seq<SessionEvent>)
    ensures Deciders(events) == 0 <==> forall k :: 0 <= k < |events| ==> !Decides(events[k])
  {
    if events != [] {
      NoDeciders(events[..|events| - 1]);
    }
  }

  predicate IsGone(s: Session, id: nat) {
    id in s.submitted && id !in s.starters && id !in s.drivers
  }

  /** The last turn of a complete submission is over directly before Idle; what its loop collects
      is the outcome of its first decision. */
  predicate EndsWithTurn(events: seq<SessionEvent>) {
    && 2 <= |events| && events[|events| - 1] == StatusChanged(Idle) && Decides(events[|events| - 2])
  }

  /** No turn before the last one was decided, so that all of them needed a follow-up. */
  predicate OnlyLastDecides(events: seq<SessionEvent>)
    requires EndsWithTurn(events)
  {
    forall k :: 0 <= k < |events| - 2 ==> !Decides(events[k])
  }

  /** The outcome of the last turn. */
  function LastOutcome(events: seq<SessionEvent>): Outcome
    requires EndsWithTurn(events)
  {
    OutcomeOf(events[..|events| - 2], events[|events| - 2])
  }

  lemma {:induction false} FirstDecider(events: seq<SessionEvent>, i: nat) returns (first: nat)
    requires i < |events| && Decides(events[i])
    ensures first <= i && Decides(events[first]) && forall k :: 0 <= k < first ==> !Decides(events[k])
  {
    first := i;
    if k :| 0 <= k < i && Decides(events[k]) {
      first := FirstDecider(events, k);
    }
  }

  /** For every submission of every run: its collecting loop returns with the outcome of the first
      turn decided, and that is the last turn if and only if no input was drained and no
      cancellation seen behind a turn that needed no follow-up. */
  lemma CollectsLastTurnIff(base: seq<TranscriptItem>, steps: seq<Step>, id: nat) returns (first: nat)
    requires IsRun(New(base), steps) && IsGone(After(New(base), steps), id)
    ensures var s := After(New(base), steps);
            var events := Of(s.log, id);
            && Returns(s.log, id) && EndsWithTurn(events)
            && first <= |events| - 2 && Decides(events[first])
            && (forall k :: 0 <= k < first ==> !Decides(events[k]))
            && ResultOf(events) == Some(OutcomeOf(events[..first], events[first]))
            && (first == |events| - 2 <==> Resumptions(New(base), steps, id) == 0)
            && (first == |events| - 2 <==> OnlyLastDecides(events))
  {
    hide IsRun, After, Of, Resumptions, Watch, Deciders, ResultOf, OutcomeOf, Returns;
    var events := Of(After(New(base), steps).log, id);
    FinishedSubmissionsReturn(base, steps, id);
    EndsDecided(events);
    DecisionsAreCounted(base, steps, id);
    first := FirstDecider(events, |events| - 2);
    DecidedOnceIff(events, |events| - 2);
    ResultIsFirst(events, first);
  }

  // ---------------------------------------------------------------------------
  // A session nobody steers or cancels

  predicate LeavesAlone(step: Step) {
    !step.Push? && !step.Cancel?
  }

  predicate IsQuiet(s: Session) {
    s.locked.steering == [] && s.locked.followUp == [] && s.cancelled == {}
  }

  lemma StepStaysQuiet(s: Session, step: Step, id: nat)
    requires IsQuiet(s) && Enabled(s, step) && LeavesAlone(step)
    ensures IsQuiet(Apply(s, step)) && !Resumes(s, step, id)
  {
    hide Tagged;
  }

  lemma {:induction false} QuietNeverResumes(s: Session, steps: seq<Step>, id: nat)
    requires IsQuiet(s) && IsRun(s, steps) && forall i :: 0 <= i < |steps| ==> LeavesAlone(steps[i])
    ensures Resumptions(s, steps, id) == 0
    decreases |steps|
  {
    hide Apply, Enabled, IsQuiet, LeavesAlone, Resumes;
    if steps != [] {
      StepStaysQuiet(s, steps[0], id);
      QuietNeverResumes(Apply(s, steps[0]), steps[1..], id);
    }
  }

  /** `ask_once` begins a session, keeps its only handle and collects the text of one run: nobody
      pushes an input or cancels.  Every submission of such a session that is gone has been
      collected, all its turns but the last needed a follow-up, and the outcome is the last's. */
  lemma AskOnceReturnsLastTurn(base: seq<TranscriptItem>, steps: seq<Step>, id: nat)
    requires IsRun(New(base), steps) && IsGone(After(New(base), steps), id)
    requires forall i :: 0 <= i < |steps| ==> LeavesAlone(steps[i])
    ensures var s := After(New(base), steps);
            var events := Of(s.log, id);
            && Returns(s.log, id) && EndsWithTurn(events) && OnlyLastDecides(events)
            && ResultOf(events) == Some(LastOutcome(events))
  {
    hide IsRun, After, Of, Resumptions, ResultOf, OutcomeOf, Returns, LeavesAlone;
    QuietNeverResumes(New(base), steps, id);
    var first := CollectsLastTurnIff(base, steps, id);
  }

  // ---------------------------------------------------------------------------
  // A session that is steered

  /** A submission that stands at `pc` with nothing left to feed, and what it has sent. */
  predicate Stands(s: Session, id: nat, l: Locked, pc: Pc, own: seq<SessionEvent>) {
    && id in s.drivers && s.drivers[id] == Driver([], pc) && id !in s.starters && id in s.submitted
    && id !in s.cancelled && s.locked == l && Of(s.log, id) == own
  }

  /** The run so far, and where its submission stands. */
  datatype Trace = Trace(steps: seq<Step>, l: Locked, pc: Pc, own: seq<SessionEvent>)

  predicate IsTrace(s: Session, id: nat, t: Trace) {
    IsRun(s, t.steps) && Stands(After(s, t.steps), id, t.l, t.pc, t.own)
  }

  /** The driver moves once more. */
  function Moved(id: nat, t: Trace, choice: Choice): Trace
    requires MayMove(Driver([], t.pc), choice) && !t.pc.SendingIdle?
  {
    var m := MoveOf(t.l, id, Driver([], t.pc), false, choice);
    Trace(t.steps + [Drive(id, choice)], m.locked, m.driver.value.pc, t.own + m.sent)
  }

  lemma MovedIsTrace(s: Session, id: nat, t: Trace, choice: Choice)
    requires IsTrace(s, id, t) && MayMove(Driver([], t.pc), choice) && !t.pc.SendingIdle?
    ensures IsTrace(s, id, Moved(id, t, choice))
  {
    var step := Drive(id, choice);
    var before := After(s, t.steps);
    MovesOn(t.l, id, t.pc, choice);
    hide IsRun, After, Of, MoveOf, MayMove, Tagged;
    OwnMoveSends(before, id, choice);
    OneMoreStep(s, t.steps, step);
    assert Drive(id, choice) == step;
    assert id !in before.cancelled && before.drivers[id] == Driver([], t.pc) && before.locked == t.l;
    assert After(s, t.steps + [step]) == Apply(before, step);
    var m := MoveOf(t.l, id, Driver([], t.pc), false, choice);
    assert Apply(before, step).drivers == before.drivers[id := m.driver.value];
    assert m.driver.value == Driver([], m.driver.value.pc);
  }

  lemma MovesOn(l: Locked, id: nat, pc: Pc, choice: Choice)
    requires MayMove(Driver([], pc), choice) && !pc.SendingIdle?
    ensures var m := MoveOf(l, id, Driver([], pc), false, choice);
            m.driver.Some? && m.driver.value.initial == []
  {
  }

  /** What a turn of one text sends. */
  function TurnOf(text: string): seq<SessionEvent> {
    [TurnStarted] + [TextDelta(text)] + [TurnCompleted(false, None)]
  }

  /** A turn that streams a text and needs no follow-up. */
  lemma SaysOnce(s: Session, id: nat, t: Trace, text: string) returns (u: Trace)
    requires IsTrace(s, id, t) && t.pc.Starting?
    ensures IsTrace(s, id, u) && u.l == t.l && u.pc == Draining(Steering, false) && u.own == t.own + TurnOf(text)
  {
    hide IsTrace;
    var a := Moved(id, t, NoChoice);
    MovedIsTrace(s, id, t, NoChoice);
    var b := Moved(id, a, Built);
    MovedIsTrace(s, id, a, Built);
    var c := Moved(id, b, EventArrives(TextDelta(text)));
    MovedIsTrace(s, id, b, EventArrives(TextDelta(text)));
    var d := Moved(id, c, TurnReturns(false, None));
    MovedIsTrace(s, id, c, TurnReturns(false, None));
    var e := Moved(id, d, NoChoice);
    MovedIsTrace(s, id, d, NoChoice);
    u := Moved(id, e, NoChoice);
    MovedIsTrace(s, id, e, NoChoice);
    assert u.own == t.own + TurnOf(text);
  }

  /** Behind a turn a steered input is drained and the next turn begins. */
  lemma Resumed(s: Session, id: nat, t: Trace) returns (u: Trace)
    requires IsTrace(s, id, t) && t.pc == Draining(Steering, false)
    requires Flatten(t.l.steering) != [] && t.l.followUp == []
    ensures IsTrace(s, id, u) && u.pc == Starting && u.own == t.own
    ensures u.l.steering == [] && u.l.followUp == []
  {
    hide IsTrace;
    assert Flatten<TranscriptItem>([]) == [] by { NothingQueued(); }
    hide Flatten;
    var items := Flatten(t.l.steering);
    var a := Moved(id, t, NoChoice);
    MovedIsTrace(s, id, t, NoChoice);
    assert a.pc == Appending(Steering, items, false);
    var b := Moved(id, a, NoChoice);
    MovedIsTrace(s, id, a, NoChoice);
    assert b.pc == LoopTop && b.l.conversation != [];
    var c := Moved(id, b, NoChoice);
    MovedIsTrace(s, id, b, NoChoice);
    var d := Moved(id, c, NoChoice);
    MovedIsTrace(s, id, c, NoChoice);
    var e := Moved(id, d, NoChoice);
    MovedIsTrace(s, id, d, NoChoice);
    var f := Moved(id, e, NoChoice);
    MovedIsTrace(s, id, e, NoChoice);
    assert f.pc == CheckingEmpty && f.l.conversation != [];
    u := Moved(id, f, NoChoice);
    MovedIsTrace(s, id, f, NoChoice);
  }

  /** With nothing queued the submission ends. */
  lemma GoesIdle(s: Session, id: nat, t: Trace) returns (steps: seq<Step>)
    requires IsTrace(s, id, t) && t.pc == Draining(Steering, false) && t.l.steering == [] && t.l.followUp == []
    ensures IsRun(s, steps) && IsGone(After(s, steps), id)
    ensures Of(After(s, steps).log, id) == t.own + [StatusChanged(Idle)]
  {
    hide IsTrace, IsRun, After, Of, Moved;
    var a := MovedQuietly(s, id, t);
    var b := MovedQuietly(s, id, a);
    var c := MovedQuietly(s, id, b);
    LastMove(s, id, c);
    steps := c.steps + [Drive(id, NoChoice)];
  }

  /** One move towards the end of a submission with nothing queued. */
  lemma MovedQuietly(s: Session, id: nat, t: Trace) returns (u: Trace)
    requires IsTrace(s, id, t) && t.l.steering == [] && t.l.followUp == []
    requires t.pc in {Draining(Steering, false), Draining(FollowUp, false), Releasing}
    ensures IsTrace(s, id, u) && u.l.steering == [] && u.l.followUp == [] && u.own == t.own
    ensures u.pc == if t.pc.Releasing? then SendingIdle
                    else if t.pc.queue.Steering? then Draining(FollowUp, false) else Releasing
  {
    assert Flatten<TranscriptItem>([]) == [] by { NothingQueued(); }
    hide Flatten, IsTrace;
    u := Moved(id, t, NoChoice);
    MovedIsTrace(s, id, t, NoChoice);
    assert t.own + [] == t.own;
  }

  lemma LastMove(s: Session, id: nat, t: Trace)
    requires IsTrace(s, id, t) && t.pc == SendingIdle
    ensures var steps := t.steps + [Drive(id, NoChoice)];
            && IsRun(s, steps) && IsGone(After(s, steps), id)
            && Of(After(s, steps).log, id) == t.own + [StatusChanged(Idle)]
  {
    hide IsRun, After, Of, Tagged;
    OneMoreStep(s, t.steps, Drive(id, NoChoice));
    OwnMoveSends(After(s, t.steps), id, NoChoice);
  }

  /** The run `steps` from a new session leaves `s`, which has sent nothing for its submission. */
  predicate Silent(steps: seq<Step>, s: Session) {
    Reaches(New([]), steps, s) && Of(s.log, 1) == []
  }

  lemma SilentStep(steps: seq<Step>, s: Session, step: Step)
    requires Silent(steps, s) && Enabled(s, step)
    requires IsDriveOf(step, 1) ==> MoveOf(s.locked, 1, s.drivers[1], 1 in s.cancelled, step.choice).sent == []
    ensures Silent(steps + [step], Apply(s, step))
  {
    hide Reaches, Apply, Enabled, MoveOf, Of;
    ReachesNext(New([]), steps, s, step);
    if IsDriveOf(step, 1) {
      OwnMoveSends(s, 1, step.choice);
    } else {
      OthersSendNothing(s, step, 1);
    }
  }

  /** A run begins and its driver is spawned. */
  lemma Spawned(input: seq<TranscriptItem>) returns (steps: seq<Step>, s: Session)
    ensures Silent(steps, s)
    ensures s.drivers == map[1 := Driver(input, LoopTop)] && s.starters == map[] && 1 in s.submitted
    ensures s.locked == Locked([], [], [], Running, Some(1)) && s.cancelled == {} && s.announcers == map[]
  {
    hide Silent, Of;
    steps, s := [], New([]);
    NothingSentYet();
    SilentStep(steps, s, Run(input));
    steps, s := steps + [Run(input)], Apply(s, Run(input));
    var running := StatusChanged(Running);
    assert [InputQueued(Primary, input), running][1..] == [running] && [running][1..] == [];
    assert s.starters == map[1 := Starter(input, [InputQueued(Primary, input), running])];
    SilentStep(steps, s, Announce(1));
    steps, s := steps + [Announce(1)], Apply(s, Announce(1));
    assert s.starters == map[1 := Starter(input, [running])];
    SilentStep(steps, s, Announce(1));
    steps, s := steps + [Announce(1)], Apply(s, Announce(1));
    assert s.starters == map[1 := Starter(input, [])];
    SilentStep(steps, s, Spawn(1));
    steps, s := steps + [Spawn(1)], Apply(s, Spawn(1));
  }

  lemma NothingSentYet()
    ensures Silent([], New([]))
  {
    OneEntry([], StatusChanged(Idle), 1);
    assert [] + [Entry(None, StatusChanged(Idle))] == [Entry(None, StatusChanged(Idle))];
  }

  /** A run begins, and an input is steered to it before its first turn. */
  lemma BeginsSteered(input: seq<TranscriptItem>, more: seq<TranscriptItem>) returns (t: Trace)
    requires input != []
    ensures IsTrace(New([]), 1, t) && t.pc == Starting && t.own == []
    ensures t.l.steering == [more] && t.l.followUp == []
  {
    var steps, s := Spawned(input);
    hide Silent, IsRun, After, Of;
    var push, drive := Push(0, Steering, more), Drive(1, NoChoice);
    SilentStep(steps, s, push);
    steps, s := steps + [push], Apply(s, push);
    SilentStep(steps, s, drive);
    steps, s := steps + [drive], Apply(s, drive);
    assert s.drivers[1] == Driver(input, Feeding);
    SilentStep(steps, s, drive);
    steps, s := steps + [drive], Apply(s, drive);
    t := Trace(steps, s.locked, Starting, []);
    SilentStands(steps, s, t);
  }

  lemma SilentStands(steps: seq<Step>, s: Session, t: Trace)
    requires Silent(steps, s) && t == Trace(steps, s.locked, Starting, [])
    requires 1 in s.drivers && s.drivers[1] == Driver([], Starting)
    requires 1 !in s.starters && 1 in s.submitted && 1 !in s.cancelled
    ensures IsTrace(New([]), 1, t)
  {
  }

  /** A steered session in which the text returned is not that of the last turn: whatever the
      inputs and the two texts are, the run below says the first text, drains the steered input,
      says the second text and goes idle, and its loop returns the first. */
  lemma SteeredTextDiffers(input: seq<TranscriptItem>, more: seq<TranscriptItem>, first: string, second: string)
    returns (steps: seq<Step>)
    requires input != [] && more != []
    ensures IsRun(New([]), steps) && IsGone(After(New([]), steps), 1)
    ensures var events := Of(After(New([]), steps).log, 1);
            && events == TurnOf(first) + TurnOf(second) + [StatusChanged(Idle)]
            && ResultOf(events) == Some(Collected(first)) && EndsWithTurn(events)
            && LastOutcome(events) == Collected(second)
  {
    hide IsTrace, IsRun, After;
    var t := BeginsSteered(input, more);
    var u := SaysOnce(New([]), 1, t, first);
    assert Flatten(u.l.steering) == more;
    var v := Resumed(New([]), 1, u);
    var w := SaysOnce(New([]), 1, v, second);
    steps := GoesIdle(New([]), 1, w);
    assert [] + TurnOf(first) + TurnOf(second) == TurnOf(first) + TurnOf(second);
    TwoTexts(first, second);
  }

  lemma TwoTexts(first: string, second: string)
    ensures var events := TurnOf(first) + TurnOf(second) + [StatusChanged(Idle)];
            && ResultOf(events) == Some(Collected(first)) && EndsWithTurn(events)
            && LastOutcome(events) == Collected(second)
  {
    hide ResultOf, OutcomeOf, Flatten;
    var end := TurnCompleted(false, None);
    var events := TurnOf(first) + TurnOf(second) + [StatusChanged(Idle)];
    assert events == [TurnStarted, TextDelta(first), end] + [TurnStarted, TextDelta(second), end]
                     + [StatusChanged(Idle)];
    assert events[2] == end && events[5] == end && !Decides(events[0]) && !Decides(events[1]);
    assert events[..2] == [] + [TurnStarted, TextDelta(first)];
    assert events[..5] == TurnOf(first) + [TurnStarted, TextDelta(second)];
    ResultIsFirst(events, 2);
    TextOfTurn([], first);
    TextOfTurn(TurnOf(first), second);
  }

  lemma TextOfTurn(before: seq<SessionEvent>, text: string)
    ensures OutcomeOf(before + [TurnStarted, TextDelta(text)], TurnCompleted(false, None)) == Collected(text)
  {
    var started := before + [TurnStarted];
    var events := before + [TurnStarted, TextDelta(text)];
    assert events == started + [TextDelta(text)];
    assert events[..|events| - 1] == started;
    assert CurrentTurn(started) == [];
    assert CurrentTurn(events) == [TextDelta(text)];
    assert [TextDelta(text)][..0] == [];
    assert Deltas([TextDelta(text)]) == [text];
    assert Flatten([text]) == text + Flatten([]);
  }
}
