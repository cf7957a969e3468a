/** A run of a session state by state, and what its steps send: the tools for statements about
    what stands where in a run (src/core/src/session.rs:100-480). */
module SessionRuns {
  import opened Basics
  import opened Transcript
  import opened SessionLog
  import opened SessionState
  import opened Session

  /** The session before step `k` of a run. */
  function StateAt(s: Session, steps: seq<Step>, k: nat): Session
    requires IsRun(s, steps) && k <= |steps|
    decreases k
  {
    if k == 0 then s else StateAt(Apply(s, steps[0]), steps[1..], k - 1)
  }

  lemma {:induction false} StepAt(s: Session, steps: seq<Step>, k: nat)
    requires IsRun(s, steps) && k < |steps|
    ensures Enabled(StateAt(s, steps, k), steps[k])
    ensures StateAt(s, steps, k + 1) == Apply(StateAt(s, steps, k), steps[k])
    decreases k
  {
    hide Apply, Enabled;
    if k > 0 {
      StepAt(Apply(s, steps[0]), steps[1..], k - 1);
    } else {
      assert StateAt(Apply(s, steps[0]), steps[1..], 0) == Apply(s, steps[0]);
    }
  }

  lemma {:induction false} EndsAt(s: Session, steps: seq<Step>)
    requires IsRun(s, steps)
    ensures StateAt(s, steps, |steps|) == After(s, steps)
    decreases |steps|
  {
    hide Apply, Enabled;
    if steps != [] {
      EndsAt(Apply(s, steps[0]), steps[1..]);
    }
  }

  lemma {:induction false} InvariantAt(s: Session, steps: seq<Step>, k: nat, base: seq<TranscriptItem>)
    requires Invariant(s, base) && IsRun(s, steps) && k <= |steps|
    ensures Invariant(StateAt(s, steps, k), base)
    decreases k
  {
    hide Apply, Enabled, Invariant;
    if k > 0 {
      StepKeepsInvariant(s, steps[0], base);
      InvariantAt(Apply(s, steps[0]), steps[1..], k - 1, base);
    }
  }

  /** A run goes on. */
  lemma {:induction false} OneMoreStep(s: Session, steps: seq<Step>, step: Step)
    requires IsRun(s, steps) && Enabled(After(s, steps), step)
    ensures IsRun(s, steps + [step]) && After(s, steps + [step]) == Apply(After(s, steps), step)
    decreases |steps|
  {
    hide Apply, Enabled;
    var all := steps + [step];
    if steps == [] {
      assert all[1..] == [] && all[0] == step;
      assert IsRun(Apply(s, step), []);
      assert After(Apply(s, step), []) == Apply(s, step);
    } else {
      assert all[1..] == steps[1..] + [step] && all[0] == steps[0];
      OneMoreStep(Apply(s, steps[0]), steps[1..], step);
    }
  }

  /** The run leads from the one session to the other. */
  predicate Reaches(s: Session, steps: seq<Step>, t: Session) {
    IsRun(s, steps) && After(s, steps) == t
  }

  lemma StaysThere(s: Session)
    ensures Reaches(s, [], s)
  {
  }

  lemma ReachesNext(s: Session, steps: seq<Step>, t: Session, step: Step)
    requires Reaches(s, steps, t) && Enabled(t, step)
    ensures Reaches(s, steps + [step], Apply(t, step))
  {
    hide Apply, Enabled;
    OneMoreStep(s, steps, step);
  }

  lemma IsReached(s: Session, steps: seq<Step>, t: Session)
    requires Reaches(s, steps, t)
    ensures IsRun(s, steps) && After(s, steps) == t
  {
  }

  // ---------------------------------------------------------------------------
  // What a step does to a submission and to the queues

  predicate IsDriveOf(step: Step, id: nat) {
    step.Drive? && step.id == id
  }

  /** Nobody but the driver of a submission sends anything for it. */
  lemma OthersSendNothing(s: Session, step: Step, id: nat)
    requires Enabled(s, step) && !IsDriveOf(step, id)
    ensures Of(Apply(s, step).log, id) == Of(s.log, id)
  {
    hide MoveOf, MayMove, Of, Begin, Tagged;
    match step
    case Drive(mover, choice) =>
      MoveFeedsNobodyElse(s.locked, mover, s.drivers[mover], mover in s.cancelled, choice, id);
      OfTagged(s.log, Some(mover), MoveOf(s.locked, mover, s.drivers[mover], mover in s.cancelled, choice).sent, id);
      assert Of(s.log, id) + [] == Of(s.log, id);
    case Announce(k) => OneEntry(s.log, s.starters[k].toSend[0], id);
    case AnnouncePush(caller) => OneEntry(s.log, s.announcers[caller], id);
    case AnnounceAbort(caller) => OneEntry(s.log, StatusChanged(Aborting), id);
    case Run(items) => BeginsQuietly(s, items, [InputQueued(Primary, items), StatusChanged(Running)]);
    case Continue(_) => BeginsQuietly(s, [], [StatusChanged(Running)]);
    case _ =>
  }

  lemma BeginsQuietly(s: Session, items: seq<TranscriptItem>, toSend: seq<SessionEvent>)
    ensures var t := Begin(s, items, toSend);
            && t.log == s.log && t.drivers == s.drivers && t.cancelled == s.cancelled
            && t.announcers == s.announcers && t.aborters == s.aborters && t.continuing == s.continuing
            && t.locked.steering == s.locked.steering && t.locked.followUp == s.locked.followUp
  {
  }

  /** A driver adds what its move sends. */
  lemma OwnMoveSends(s: Session, id: nat, choice: Choice)
    requires Enabled(s, Drive(id, choice))
    ensures var m := MoveOf(s.locked, id, s.drivers[id], id in s.cancelled, choice);
            |m.sent| <= 1 && Of(Apply(s, Drive(id, choice)).log, id) == Of(s.log, id) + m.sent
  {
    hide MayMove, Of, Tagged;
    var m := MoveOf(s.locked, id, s.drivers[id], id in s.cancelled, choice);
    assert |m.sent| <= 1;
    hide MoveOf;
    OfTagged(s.log, Some(id), m.sent, id);
  }

  /** A driver moves by its own steps only, and begins at the top of its loop. */
  lemma OthersMoveNobody(s: Session, step: Step, id: nat)
    requires OneLive(s) && Enabled(s, step) && !IsDriveOf(step, id)
    ensures var t := Apply(s, step);
            if id in s.drivers then id in t.drivers && t.drivers[id] == s.drivers[id]
            else id in t.drivers ==> t.drivers[id].pc.LoopTop?
  {
    hide MoveOf, MayMove, Begin, Tagged;
    if step.Run? || step.Continue? {
      var items := if step.Run? then step.items else [];
      BeginsQuietly(s, items, [InputQueued(Primary, items), StatusChanged(Running)]);
      BeginsQuietly(s, [], [StatusChanged(Running)]);
    }
  }
}
