/** When the Idle event of a submission tells the truth.  The status is written under the lock and
    announced behind it, so that a call of the next submission may come between
    (src/core/src/session.rs:293-337, 470-479). */
module SessionStatus {
  import opened Basics
  import opened Transcript
  import opened SessionLog
  import opened SessionState
  import opened Session
  import opened SessionRuns

  /** A call that finds no active turn. */
  predicate BeginsAt(s: Session, step: Step) {
    (step.Run? || step.Continue?) && s.locked.active.None?
  }

  predicate ReleasesAt(s: Session, step: Step) {
    step.Drive? && step.id in s.drivers && s.drivers[step.id].pc.Releasing?
  }

  lemma StepActivates(s: Session, step: Step)
    requires Enabled(s, step)
    ensures Apply(s, step).locked.active
         == if BeginsAt(s, step) then Some(s.nextId) else if ReleasesAt(s, step) then None else s.locked.active
  {
    hide Tagged, Drained, Flatten;
    if step.Drive? {
      hide MoveOf, MayMove;
      MoveKeepsLive(s.locked, step.id, s.drivers[step.id], step.id in s.cancelled, step.choice);
    }
  }

  /** A turn that is active now and was not then has begun since. */
  lemma {:induction false} BeganSince(s: Session, steps: seq<Step>, lo: nat, hi: nat) returns (k: nat)
    requires IsRun(s, steps) && lo <= hi <= |steps| && StateAt(s, steps, lo).locked.active.None?
    requires StateAt(s, steps, hi).locked.active.Some?
    ensures lo <= k < hi && BeginsAt(StateAt(s, steps, k), steps[k])
    ensures StateAt(s, steps, hi).locked.active == Some(StateAt(s, steps, k).nextId)
  {
    hide StateAt, Apply, Enabled, IsRun, BeginsAt;
    StepAt(s, steps, hi - 1);
    StepActivates(StateAt(s, steps, hi - 1), steps[hi - 1]);
    k := hi - 1;
    if !BeginsAt(StateAt(s, steps, hi - 1), steps[hi - 1]) {
      k := BeganSince(s, steps, lo, hi - 1);
    }
  }

  /** A driver comes to its last event by releasing the session. */
  lemma ComesToIdle(s: Session, id: nat, choice: Choice)
    requires Enabled(s, Drive(id, choice))
    ensures var t := Apply(s, Drive(id, choice));
            id in t.drivers && t.drivers[id].pc.SendingIdle? ==> ReleasesAt(s, Drive(id, choice)) && choice.NoChoice?
  {
    hide Tagged, Flatten;
  }

  lemma {:induction false} ReleasedAt(base: seq<TranscriptItem>, steps: seq<Step>, id: nat, hi: nat) returns (r: nat)
    requires IsRun(New(base), steps) && hi <= |steps|
    requires var now := StateAt(New(base), steps, hi);
             id in now.drivers && now.drivers[id].pc.SendingIdle?
    ensures r < hi && steps[r] == Drive(id, NoChoice) && ReleasesAt(StateAt(New(base), steps, r), steps[r])
  {
    hide Apply, Enabled, IsRun, Invariant, OneLive, ReleasesAt;
    var s := New(base);
    assert hi > 0;
    hide StateAt;
    NewIsInvariant(base);
    InvariantAt(s, steps, hi - 1, base);
    var before, step := StateAt(s, steps, hi - 1), steps[hi - 1];
    StepAt(s, steps, hi - 1);
    r := hi - 1;
    if IsDriveOf(step, id) {
      ComesToIdle(before, id, step.choice);
    } else {
      InvariantIsOneLive(before, base);
      OthersMoveNobody(before, step, id);
      r := ReleasedAt(base, steps, id, hi - 1);
    }
  }

  lemma InvariantIsOneLive(s: Session, base: seq<TranscriptItem>)
    requires Invariant(s, base)
    ensures OneLive(s)
  {
  }

  /** The exact condition, over every interleaving: when a submission sends its Idle event, the
      session is not idle if and only if a call that began behind this submission's release is
      active. */
  lemma StaleIdleIff(base: seq<TranscriptItem>, steps: seq<Step>, id: nat) returns (released: nat)
    requires IsRun(New(base), steps)
    requires var s := After(New(base), steps);
             id in s.drivers && s.drivers[id].pc.SendingIdle?
    ensures released < |steps| && steps[released] == Drive(id, NoChoice)
    ensures ReleasesAt(StateAt(New(base), steps, released), steps[released])
    ensures var s := After(New(base), steps);
            && (!s.locked.status.Idle? <==> s.locked.active.Some?)
            && (!s.locked.status.Idle? <==>
                  exists k :: released < k < |steps| && BeginsAt(StateAt(New(base), steps, k), steps[k])
                              && s.locked.active == Some(StateAt(New(base), steps, k).nextId))
  {
    hide IsRun, After, StateAt, Invariant, BeginsAt, Apply, Enabled;
    var n := |steps|;
    EndsAt(New(base), steps);
    NewIsInvariant(base);
    InvariantAt(New(base), steps, n, base);
    InvariantIsOneLive(StateAt(New(base), steps, n), base);
    released := ReleasedAt(base, steps, id, n);
    StepAt(New(base), steps, released);
    StepActivates(StateAt(New(base), steps, released), steps[released]);
    NotBeginning(StateAt(New(base), steps, released), steps[released]);
    if After(New(base), steps).locked.active.Some? {
      var k := BeganSince(New(base), steps, released + 1, n);
    }
  }

  lemma NotBeginning(s: Session, step: Step)
    requires step.Drive?
    ensures !BeginsAt(s, step)
  {
  }

  /** It happens from every state with a submission about to be released: the next submission's
      Running event is logged directly before this one's Idle event, while the session runs. */
  lemma StatusesOverlap(s: Session, id: nat, items: seq<TranscriptItem>) returns (steps: seq<Step>)
    requires OneLive(s) && id in s.drivers && s.drivers[id].pc.Releasing?
    ensures IsRun(s, steps)
    ensures var t := After(s, steps);
            && t.locked.status == Running && t.locked.active == Some(s.nextId) && id < s.nextId
            && t.log == s.log + [Entry(None, InputQueued(Primary, items))] + [Entry(None, StatusChanged(Running))]
                        + [Entry(Some(id), StatusChanged(Idle))]
  {
    hide Reaches, Tagged;
    var release := Drive(id, NoChoice);
    assert id in s.submitted && id < s.nextId;
    StaysThere(s);
    ReachesNext(s, [], s, release);
    var t := Apply(s, release);
    NothingLogged(s.log, id);
    assert t.locked.active.None? && t.drivers[id].pc.SendingIdle? && t.log == s.log && t.nextId == s.nextId;
    var u;
    steps, u := CallIsAnnounced(s, [] + [release], t, items);
    ReachesNext(s, steps, u, release);
    OneLogged(id, StatusChanged(Idle));
    IsReached(s, steps + [release], Apply(u, release));
    steps := steps + [release];
  }

  /** A call that finds no active turn announces its input and the new status. */
  lemma CallIsAnnounced(s: Session, before: seq<Step>, t: Session, items: seq<TranscriptItem>)
    returns (steps: seq<Step>, u: Session)
    requires Reaches(s, before, t) && t.locked.active.None?
    ensures Reaches(s, steps, u) && u.drivers == t.drivers && u.cancelled == t.cancelled
    ensures u.locked.status == Running && u.locked.active == Some(t.nextId)
    ensures u.log == t.log + [Entry(None, InputQueued(Primary, items))] + [Entry(None, StatusChanged(Running))]
  {
    hide Reaches;
    var next, queued, running := t.nextId, InputQueued(Primary, items), StatusChanged(Running);
    assert [queued, running][1..] == [running];
    ReachesNext(s, before, t, Run(items));
    steps, u := before + [Run(items)], Apply(t, Run(items));
    assert next in u.starters && u.starters[next].toSend == [queued, running];
    ReachesNext(s, steps, u, Announce(next));
    steps, u := steps + [Announce(next)], Apply(u, Announce(next));
    assert next in u.starters && u.starters[next].toSend == [running];
    ReachesNext(s, steps, u, Announce(next));
    steps, u := steps + [Announce(next)], Apply(u, Announce(next));
  }

  lemma NothingLogged(log: seq<Entry>, id: nat)
    ensures log + Tagged(Some(id), []) == log
  {
  }

  lemma OneLogged(id: nat, event: SessionEvent)
    ensures Tagged(Some(id), [event]) == [Entry(Some(id), event)]
  {
  }
}
