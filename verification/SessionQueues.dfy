/** Which inputs are left queued.  A queue holds exactly what was pushed to it behind its last
    drain, in every run; for a submission that ends by itself that is the drain of the queue behind
    its last turn (src/core/src/session.rs:123-151, 442-479, 559-588). */
module SessionQueues {
  import opened Basics
  import opened Transcript
  import opened SessionLog
  import opened SessionState
  import opened Session
  import opened SessionRuns

  /** A driver takes everything out of the queue. */
  predicate Drains(s: Session, step: Step, queue: InputQueue) {
    && step.Drive? && step.id in s.drivers
    && s.drivers[step.id].pc.Draining? && s.drivers[step.id].pc.queue == queue
  }

  predicate PushesTo(step: Step, queue: InputQueue) {
    step.Push? && step.queue == queue
  }

  /** The inputs that these steps push to a queue. */
  function InputsTo(steps: seq<Step>, queue: InputQueue): seq<Input> {
    if steps == [] then []
    else
      var n := |steps| - 1;
      InputsTo(steps[..n], queue) + if PushesTo(steps[n], queue) then [steps[n].input] else []
  }

  /** The place behind the last drain of a queue before `hi`, or 0 if there is none. */
  function LastDrain(s: Session, steps: seq<Step>, queue: InputQueue, hi: nat): (r: nat)
    requires IsRun(s, steps) && hi <= |steps|
    ensures r <= hi
    ensures r > 0 ==> Drains(StateAt(s, steps, r - 1), steps[r - 1], queue)
    ensures forall k :: r <= k < hi ==> !Drains(StateAt(s, steps, k), steps[k], queue)
  {
    if hi == 0 then 0
    else if Drains(StateAt(s, steps, hi - 1), steps[hi - 1], queue) then hi
    else LastDrain(s, steps, queue, hi - 1)
  }

  /** What one step does to a queue. */
  lemma StepQueues(s: Session, step: Step, queue: InputQueue)
    requires Enabled(s, step) && !queue.Primary?
    ensures QueueOf(Apply(s, step).locked, queue)
         == if Drains(s, step, queue) then []
            else if PushesTo(step, queue) then QueueOf(s.locked, queue) + [step.input]
            else QueueOf(s.locked, queue)
  {
    hide Flatten, Tagged;
  }

  lemma InputsOneMore(steps: seq<Step>, lo: nat, hi: nat, queue: InputQueue)
    requires lo < hi <= |steps|
    ensures InputsTo(steps[lo..hi], queue)
         == InputsTo(steps[lo..hi - 1], queue) + if PushesTo(steps[hi - 1], queue) then [steps[hi - 1].input] else []
  {
    assert steps[lo..hi][..hi - lo - 1] == steps[lo..hi - 1];
  }

  lemma NoInputs(steps: seq<Step>, lo: nat, queue: InputQueue)
    requires lo <= |steps|
    ensures InputsTo(steps[lo..lo], queue) == []
  {
  }

  /** From any session, at any place of any run: a queue holds what was pushed to it behind its
      last drain, and what it held before if it never was drained. */
  lemma {:induction false} QueueIsWhatCameSince(s: Session, steps: seq<Step>, queue: InputQueue, hi: nat)
    requires IsRun(s, steps) && hi <= |steps| && !queue.Primary?
    ensures var from := LastDrain(s, steps, queue, hi);
            QueueOf(StateAt(s, steps, hi).locked, queue)
              == (if from == 0 then QueueOf(s.locked, queue) else []) + InputsTo(steps[from..hi], queue)
  {
    hide StateAt, Apply, Enabled, IsRun, InputsTo, QueueOf, Drains, LastDrain;
    LastDrainStep(s, steps, queue, hi);
    var from := LastDrain(s, steps, queue, hi);
    var kept := if from == 0 then QueueOf(s.locked, queue) else [];
    if hi == 0 {
      FirstState(s, steps);
      NoInputs(steps, 0, queue);
      assert kept + [] == kept;
    } else {
      StepAt(s, steps, hi - 1);
      StepQueues(StateAt(s, steps, hi - 1), steps[hi - 1], queue);
      if from == hi {
        NoInputs(steps, hi, queue);
      } else {
        QueueIsWhatCameSince(s, steps, queue, hi - 1);
        InputsOneMore(steps, from, hi, queue);
        var more := if PushesTo(steps[hi - 1], queue) then [steps[hi - 1].input] else [];
        Associative(kept, InputsTo(steps[from..hi - 1], queue), more);
        assert InputsTo(steps[from..hi - 1], queue) + [] == InputsTo(steps[from..hi - 1], queue);
      }
    }
  }

  lemma LastDrainStep(s: Session, steps: seq<Step>, queue: InputQueue, hi: nat)
    requires IsRun(s, steps) && hi <= |steps|
    ensures LastDrain(s, steps, queue, hi)
         == if hi == 0 then 0
            else if Drains(StateAt(s, steps, hi - 1), steps[hi - 1], queue) then hi
            else LastDrain(s, steps, queue, hi - 1)
    ensures LastDrain(s, steps, queue, hi) <= hi
  {
    hide StateAt, Drains;
  }

  lemma FirstState(s: Session, steps: seq<Step>)
    requires IsRun(s, steps)
    ensures StateAt(s, steps, 0) == s
  {
  }

  lemma {:induction false} NoInputsIff(steps: seq<Step>, queue: InputQueue)
    ensures InputsTo(steps, queue) == [] <==> forall k :: 0 <= k < |steps| ==> !PushesTo(steps[k], queue)
  {
    if steps != [] {
      hide PushesTo;
      var n := |steps| - 1;
      NoInputsIff(steps[..n], queue);
      assert forall k :: 0 <= k < n ==> steps[k] == steps[..n][k];
    }
  }

  /** In every reachable session, idle or not: what is queued are exactly the inputs pushed behind
      the last drain of the queue; nothing is, if and only if nothing was pushed since. */
  lemma LeftQueuedIff(base: seq<TranscriptItem>, steps: seq<Step>, queue: InputQueue) returns (from: nat)
    requires IsRun(New(base), steps) && !queue.Primary?
    ensures from <= |steps| && from == LastDrain(New(base), steps, queue, |steps|)
    ensures var queued := QueueOf(After(New(base), steps).locked, queue);
            && queued == InputsTo(steps[from..], queue)
            && (queued == [] <==> forall k :: from <= k < |steps| ==> !PushesTo(steps[k], queue))
  {
    hide IsRun, After, StateAt, InputsTo, PushesTo;
    from := LastDrain(New(base), steps, queue, |steps|);
    QueueIsWhatCameSince(New(base), steps, queue, |steps|);
    EndsAt(New(base), steps);
    NoInputsIff(steps[from..], queue);
    assert steps[from..] == steps[from..|steps|];
    assert forall k :: from <= k < |steps| ==> steps[k] == steps[from..][k - from];
  }

  // ---------------------------------------------------------------------------
  // A submission that ends by itself

  /** A submission about to go idle whose last turn needed no follow-up and was not aborted. */
  predicate EndsByItself(s: Session, id: nat) {
    id in s.drivers && s.drivers[id].pc.Releasing? && Watch(Of(s.log, id)) == Some(Between(true))
  }

  /** The last drain of a queue is that of the driver behind a turn that needed no follow-up. */
  predicate DrainedBehindTurn(s: Session, steps: seq<Step>, id: nat, queue: InputQueue, hi: nat)
    requires IsRun(s, steps) && hi <= |steps|
  {
    var from := LastDrain(s, steps, queue, hi);
    && 0 < from && IsDriveOf(steps[from - 1], id)
    && id in StateAt(s, steps, from - 1).drivers
    && StateAt(s, steps, from - 1).drivers[id].pc == Draining(queue, false)
  }

  predicate BothDrained(s: Session, steps: seq<Step>, id: nat, hi: nat)
    requires IsRun(s, steps) && hi <= |steps|
  {
    var now := StateAt(s, steps, hi);
    && (id in now.drivers && now.drivers[id].pc == Draining(FollowUp, false) ==>
          DrainedBehindTurn(s, steps, id, Steering, hi))
    && (EndsByItself(now, id) ==>
          DrainedBehindTurn(s, steps, id, Steering, hi) && DrainedBehindTurn(s, steps, id, FollowUp, hi))
  }

  /** How a driver comes to the last drain, and to its end. */
  lemma ComesTo(s: Session, id: nat, choice: Choice)
    requires Enabled(s, Drive(id, choice)) && IsFed(s.drivers[id])
    ensures var t := Apply(s, Drive(id, choice));
            var pc := s.drivers[id].pc;
            && (id in t.drivers && t.drivers[id].pc == Draining(FollowUp, false) ==> pc == Draining(Steering, false))
            && (EndsByItself(t, id) ==> pc == Draining(FollowUp, false))
  {
    hide MoveOf, MayMove, Of, Tagged, Watch, IsFed;
    OwnMoveSends(s, id, choice);
    var d := s.drivers[id];
    MoveComesTo(s.locked, id, d, id in s.cancelled, choice);
    if d.pc.Ending? {
      EndingIsEnded(Of(s.log, id), d.pc.event);
    }
  }

  lemma MoveComesTo(l: Locked, id: nat, d: Driver, cancelled: bool, choice: Choice)
    requires MayMove(d, choice) && IsFed(d)
    ensures var m := MoveOf(l, id, d, cancelled, choice);
            m.driver.Some? ==>
              && (m.driver.value.pc == Draining(FollowUp, false) ==> d.pc == Draining(Steering, false))
              && (m.driver.value.pc.Releasing? ==>
                    || d.pc == Draining(FollowUp, false)
                    || (d.pc.Ending? && m.sent == [d.pc.event]))
    ensures d.pc.Ending? ==> d.pc.event.TurnAborted? || d.pc.event.TurnFailed?
  {
    hide Flatten;
  }

  lemma EndingIsEnded(events: seq<SessionEvent>, e: SessionEvent)
    requires e.TurnAborted? || e.TurnFailed?
    ensures Watch(events + [e]) != Some(Between(true))
  {
    assert (events + [e])[..|events|] == events;
  }

  /** While a submission is live nobody else drains. */
  lemma OthersDrainNothing(s: Session, step: Step, id: nat, queue: InputQueue)
    requires OneLive(s) && id in s.drivers && !s.drivers[id].pc.SendingIdle? && !IsDriveOf(step, id)
    ensures !Drains(s, step, queue)
  {
    assert Live(s, id);
    if Drains(s, step, queue) {
      assert Live(s, step.id);
    }
  }

  /** A drain stays the last one over a step that drains nothing of its queue. */
  lemma StaysLast(s: Session, steps: seq<Step>, id: nat, queue: InputQueue, hi: nat)
    requires IsRun(s, steps) && 0 < hi <= |steps| && DrainedBehindTurn(s, steps, id, queue, hi - 1)
    requires !Drains(StateAt(s, steps, hi - 1), steps[hi - 1], queue)
    ensures DrainedBehindTurn(s, steps, id, queue, hi)
  {
    hide StateAt, Drains;
  }

  lemma DrainsNow(s: Session, steps: seq<Step>, id: nat, queue: InputQueue, hi: nat)
    requires IsRun(s, steps) && 0 < hi <= |steps| && IsDriveOf(steps[hi - 1], id)
    requires id in StateAt(s, steps, hi - 1).drivers
    requires StateAt(s, steps, hi - 1).drivers[id].pc == Draining(queue, false)
    ensures DrainedBehindTurn(s, steps, id, queue, hi)
  {
    hide StateAt;
  }

  lemma {:induction false} BothAreDrained(base: seq<TranscriptItem>, steps: seq<Step>, id: nat, hi: nat)
    requires IsRun(New(base), steps) && hi <= |steps|
    ensures BothDrained(New(base), steps, id, hi)
  {
    hide StateAt, Apply, Enabled, IsRun, Invariant, DrainedBehindTurn, Drains, IsFed, OneLive;
    var s := New(base);
    if hi == 0 {
      FirstState(s, steps);
    } else {
      BothAreDrained(base, steps, id, hi - 1);
      NewIsInvariant(base);
      InvariantAt(s, steps, hi - 1, base);
      var before, step := StateAt(s, steps, hi - 1), steps[hi - 1];
      StepAt(s, steps, hi - 1);
      KnownOf(before, base, step, id);
      if IsDriveOf(step, id) {
        OwnStepDrains(base, steps, id, hi);
      } else {
        OtherStepDrains(base, steps, id, hi);
      }
    }
  }

  lemma KnownOf(s: Session, base: seq<TranscriptItem>, step: Step, id: nat)
    requires Invariant(s, base) && Enabled(s, step)
    ensures OneLive(s) && (IsDriveOf(step, id) ==> id in s.drivers && IsFed(s.drivers[id]))
  {
    hide IsFed, Conserves, FitsLog, Records, Of, MayMove;
    assert RunFits(s, id);
  }

  lemma OwnStepDrains(base: seq<TranscriptItem>, steps: seq<Step>, id: nat, hi: nat)
    requires IsRun(New(base), steps) && 0 < hi <= |steps| && BothDrained(New(base), steps, id, hi - 1)
    requires var before := StateAt(New(base), steps, hi - 1);
             && IsDriveOf(steps[hi - 1], id) && Enabled(before, steps[hi - 1]) && IsFed(before.drivers[id])
             && StateAt(New(base), steps, hi) == Apply(before, steps[hi - 1])
    ensures BothDrained(New(base), steps, id, hi)
  {
    hide StateAt, Apply, IsRun, DrainedBehindTurn, EndsByItself, MayMove, IsFed;
    var s := New(base);
    var before := StateAt(s, steps, hi - 1);
    ComesTo(before, id, steps[hi - 1].choice);
    assert steps[hi - 1] == Drive(id, steps[hi - 1].choice);
    if before.drivers[id].pc == Draining(Steering, false) {
      DrainsNow(s, steps, id, Steering, hi);
    }
    if before.drivers[id].pc == Draining(FollowUp, false) {
      DrainsNow(s, steps, id, FollowUp, hi);
      StaysLast(s, steps, id, Steering, hi);
    }
  }

  lemma OtherStepDrains(base: seq<TranscriptItem>, steps: seq<Step>, id: nat, hi: nat)
    requires IsRun(New(base), steps) && 0 < hi <= |steps| && BothDrained(New(base), steps, id, hi - 1)
    requires var before := StateAt(New(base), steps, hi - 1);
             && OneLive(before) && !IsDriveOf(steps[hi - 1], id)
             && Enabled(before, steps[hi - 1]) && StateAt(New(base), steps, hi) == Apply(before, steps[hi - 1])
    ensures BothDrained(New(base), steps, id, hi)
  {
    hide StateAt, Apply, IsRun, DrainedBehindTurn, OneLive, Enabled, Drains, Watch, Of;
    var s := New(base);
    var before, step := StateAt(s, steps, hi - 1), steps[hi - 1];
    OthersSendNothing(before, step, id);
    OthersMoveNobody(before, step, id);
    if id in before.drivers && !before.drivers[id].pc.SendingIdle? {
      OthersDrainNothing(before, step, id, Steering);
      OthersDrainNothing(before, step, id, FollowUp);
      if DrainedBehindTurn(s, steps, id, Steering, hi - 1) {
        StaysLast(s, steps, id, Steering, hi);
      }
      if DrainedBehindTurn(s, steps, id, FollowUp, hi - 1) {
        StaysLast(s, steps, id, FollowUp, hi);
      }
    }
  }

  /** A submission that ends by itself has drained both queues behind its last turn, nothing was
      drained since, and when it goes idle a queue holds exactly the inputs pushed since then. */
  lemma EndedSubmissionLeaves(base: seq<TranscriptItem>, steps: seq<Step>, id: nat, queue: InputQueue)
    returns (from: nat)
    requires IsRun(New(base), steps) && EndsByItself(After(New(base), steps), id) && !queue.Primary?
    ensures 0 < from <= |steps| && IsDriveOf(steps[from - 1], id)
    ensures var last := StateAt(New(base), steps, from - 1);
            id in last.drivers && last.drivers[id].pc == Draining(queue, false)
    ensures var s := After(New(base), steps);
            && Enabled(s, Drive(id, NoChoice))
            && var t := Apply(s, Drive(id, NoChoice));
            && t.locked.status.Idle? && t.locked.active.None?
            && QueueOf(t.locked, queue) == InputsTo(steps[from..], queue)
            && (QueueOf(t.locked, queue) == [] <==> forall k :: from <= k < |steps| ==> !PushesTo(steps[k], queue))
  {
    hide IsRun, After, StateAt, InputsTo, PushesTo, Tagged, Watch, Of, Drains;
    from := LeftQueuedIff(base, steps, queue);
    BothAreDrained(base, steps, id, |steps|);
    EndsAt(New(base), steps);
    StepQueues(After(New(base), steps), Drive(id, NoChoice), queue);
    ReleaseQueues(After(New(base), steps), id, queue);
  }

  lemma ReleaseQueues(s: Session, id: nat, queue: InputQueue)
    requires id in s.drivers && s.drivers[id].pc.Releasing?
    ensures Enabled(s, Drive(id, NoChoice)) && !Drains(s, Drive(id, NoChoice), queue)
    ensures var t := Apply(s, Drive(id, NoChoice));
            t.locked.status.Idle? && t.locked.active.None? && QueueOf(t.locked, queue) == QueueOf(s.locked, queue)
  {
  }
}
