/** What the calls of a session bring about, over every interleaving: a token is cancelled exactly
    by a call that found its submission active, behind the announcement; a pushed input is announced
    as it was pushed (src/core/src/session.rs:123-174). */
module SessionCalls {
  import opened Basics
  import opened Transcript
  import opened SessionLog
  import opened SessionState
  import opened Session
  import opened SessionRuns

  // ---------------------------------------------------------------------------
  // Aborting

  /** This caller has found this submission active and has not cancelled its token yet. */
  predicate Holds(s: Session, caller: nat, id: nat) {
    caller in s.aborters && s.aborters[caller].target == id
  }

  lemma StepHolds(s: Session, step: Step, caller: nat, id: nat)
    requires Enabled(s, step)
    ensures Holds(Apply(s, step), caller, id)
       <==> (step == RequestAbort(caller) && s.locked.active == Some(id))
            || (Holds(s, caller, id) && step != Cancel(caller))
    ensures id in Apply(s, step).cancelled
       <==> id in s.cancelled || (step.Cancel? && Holds(s, step.caller, id))
    ensures step.Cancel? ==> step.caller in s.aborters && s.aborters[step.caller].sent
    ensures step == AnnounceAbort(caller) ==>
              Apply(s, step).log == s.log + [Entry(None, StatusChanged(Aborting))]
    ensures step == RequestAbort(caller) && s.locked.active.Some? ==> Apply(s, step).locked.status == Aborting
  {
    hide MoveOf, MayMove, Tagged;
  }

  /** At step `i` the caller finds the submission active, and does not cancel before `j`. */
  ghost predicate FoundAt(s: Session, steps: seq<Step>, caller: nat, id: nat, i: nat, j: nat)
    requires IsRun(s, steps) && j <= |steps|
  {
    && i < j && steps[i] == RequestAbort(caller) && StateAt(s, steps, i).locked.active == Some(id)
    && forall k :: i < k < j ==> steps[k] != Cancel(caller)
  }

  lemma {:induction false} HoldsIff(base: seq<TranscriptItem>, steps: seq<Step>, caller: nat, id: nat, j: nat)
    requires IsRun(New(base), steps) && j <= |steps|
    ensures Holds(StateAt(New(base), steps, j), caller, id)
       <==> exists i: nat :: FoundAt(New(base), steps, caller, id, i, j)
  {
    hide Apply, Enabled, IsRun;
    if j > 0 {
      hide StateAt, Holds;
      var before := j - 1;
      HoldsIff(base, steps, caller, id, before);
      StepAt(New(base), steps, before);
      StepHolds(StateAt(New(base), steps, before), steps[before], caller, id);
      FoundLater(New(base), steps, caller, id, before, j);
    }
  }

  lemma FoundLater(s: Session, steps: seq<Step>, caller: nat, id: nat, j: nat, next: nat)
    requires IsRun(s, steps) && j < |steps| && next == j + 1
    ensures (exists i: nat :: FoundAt(s, steps, caller, id, i, next))
       <==> (steps[j] == RequestAbort(caller) && StateAt(s, steps, j).locked.active == Some(id))
            || ((exists i: nat :: FoundAt(s, steps, caller, id, i, j)) && steps[j] != Cancel(caller))
  {
    hide StateAt, IsRun;
    if i: nat :| FoundAt(s, steps, caller, id, i, next) {
      assert i < j ==> FoundAt(s, steps, caller, id, i, j);
    }
    if i: nat :| FoundAt(s, steps, caller, id, i, j) {
      assert steps[j] != Cancel(caller) ==> FoundAt(s, steps, caller, id, i, next);
    }
    if steps[j] == RequestAbort(caller) && StateAt(s, steps, j).locked.active == Some(id) {
      assert FoundAt(s, steps, caller, id, j, next);
    }
  }

  /** A call of `abort_current_turn` that found the submission active cancels it at step `j`. */
  ghost predicate CancelsAt(s: Session, steps: seq<Step>, id: nat, j: nat)
    requires IsRun(s, steps)
  {
    j < |steps| && steps[j].Cancel? && exists i: nat :: FoundAt(s, steps, steps[j].caller, id, i, j)
  }

  lemma {:induction false} CancelledBefore(base: seq<TranscriptItem>, steps: seq<Step>, id: nat, hi: nat)
    requires IsRun(New(base), steps) && hi <= |steps|
    ensures id in StateAt(New(base), steps, hi).cancelled
       <==> exists j: nat :: j < hi && CancelsAt(New(base), steps, id, j)
  {
    hide Apply, Enabled, IsRun, FoundAt;
    if hi > 0 {
      hide StateAt, Holds;
      var j := hi - 1;
      CancelledBefore(base, steps, id, j);
      StepAt(New(base), steps, j);
      StepHolds(StateAt(New(base), steps, j), steps[j], 0, id);
      if steps[j].Cancel? {
        HoldsIff(base, steps, steps[j].caller, id, j);
        assert Holds(StateAt(New(base), steps, j), steps[j].caller, id) <==> CancelsAt(New(base), steps, id, j);
      }
    }
  }

  /** In every reachable session a submission is cancelled if and only if some call found it active
      and then cancelled its token. */
  lemma CancelledIff(base: seq<TranscriptItem>, steps: seq<Step>, id: nat)
    requires IsRun(New(base), steps)
    ensures id in After(New(base), steps).cancelled <==> exists j: nat :: CancelsAt(New(base), steps, id, j)
  {
    hide IsRun, After, StateAt, FoundAt;
    EndsAt(New(base), steps);
    CancelledBefore(base, steps, id, |steps|);
  }

  // ---------------------------------------------------------------------------
  // Steering

  predicate WillAnnounce(s: Session, caller: nat, e: SessionEvent) {
    caller in s.announcers && s.announcers[caller] == e
  }

  predicate PushesAs(step: Step, caller: nat, e: SessionEvent) {
    step.Push? && step.caller == caller && e == InputQueued(step.queue, step.input)
  }

  lemma StepAnnounces(s: Session, step: Step, caller: nat, e: SessionEvent)
    requires Enabled(s, step)
    ensures WillAnnounce(Apply(s, step), caller, e)
       <==> PushesAs(step, caller, e) || (WillAnnounce(s, caller, e) && step != AnnouncePush(caller))
    ensures step.AnnouncePush? ==>
              step.caller in s.announcers && Apply(s, step).log == s.log + [Entry(None, s.announcers[step.caller])]
  {
    hide MoveOf, MayMove, Tagged, Begin;
    if step.Run? || step.Continue? {
      var items := if step.Run? then step.items else [];
      BeginsQuietly(s, items, [InputQueued(Primary, items), StatusChanged(Running)]);
      BeginsQuietly(s, [], [StatusChanged(Running)]);
    }
  }

  lemma {:induction false} PushedFirst(base: seq<TranscriptItem>, steps: seq<Step>, caller: nat, e: SessionEvent,
                                       hi: nat)
    returns (i: nat)
    requires IsRun(New(base), steps) && hi <= |steps|
    requires WillAnnounce(StateAt(New(base), steps, hi), caller, e)
    ensures i < hi && PushesAs(steps[i], caller, e)
    ensures forall k :: i < k < hi ==> steps[k] != AnnouncePush(caller)
  {
    assert hi > 0;
    hide Apply, Enabled, IsRun, StateAt, WillAnnounce, PushesAs;
    StepAt(New(base), steps, hi - 1);
    StepAnnounces(StateAt(New(base), steps, hi - 1), steps[hi - 1], caller, e);
    i := hi - 1;
    if !PushesAs(steps[i], caller, e) {
      i := PushedFirst(base, steps, caller, e, hi - 1);
    }
  }

  /** Over every run: an announcement of a queued input logs the input of the push it belongs to,
      under its queue. */
  lemma PushIsAnnounced(base: seq<TranscriptItem>, steps: seq<Step>, k: nat) returns (i: nat)
    requires IsRun(New(base), steps) && k < |steps| && steps[k].AnnouncePush?
    ensures i < k && steps[i].Push? && steps[i].caller == steps[k].caller
    ensures forall l :: i < l < k ==> steps[l] != steps[k]
    ensures StateAt(New(base), steps, k + 1).log
         == StateAt(New(base), steps, k).log + [Entry(None, InputQueued(steps[i].queue, steps[i].input))]
  {
    hide IsRun, StateAt;
    var s := StateAt(New(base), steps, k);
    StepAt(New(base), steps, k);
    StepAnnounces(s, steps[k], steps[k].caller, StatusChanged(Idle));
    i := PushedFirst(base, steps, steps[k].caller, s.announcers[steps[k].caller], k);
  }

  // ---------------------------------------------------------------------------
  // Continuing

  predicate EndsWithAssistant(conversation: seq<TranscriptItem>) {
    conversation != [] && conversation[|conversation| - 1].Message?
    && conversation[|conversation| - 1].role == "assistant"
  }

  /** Why a session may not continue, read off its state: it is busy; there is nothing to continue
      from; or there is no input and the conversation ends with an assistant message. */
  predicate RefusesToContinue(l: Locked, error: ContinueError) {
    match error
    case SessionBusy => l.active.Some?
    case EmptyConversation => l.active.None? && l.steering == [] && l.followUp == [] && l.conversation == []
    case InvalidContinuation =>
      l.active.None? && l.steering == [] && l.followUp == [] && EndsWithAssistant(l.conversation)
  }

  predicate MayContinue(l: Locked) {
    l.active.None?
    && (l.steering != [] || l.followUp != [] || (l.conversation != [] && !EndsWithAssistant(l.conversation)))
  }

  lemma RefusalIff(l: Locked)
    ensures forall error :: ContinueRefusal(l) == Some(error) <==> RefusesToContinue(l, error)
    ensures ContinueRefusal(l).None? <==> MayContinue(l)
  {
  }

  lemma StepContinues(s: Session, step: Step, caller: nat)
    requires Enabled(s, step)
    ensures caller in Apply(s, step).continuing
       <==> (step == CheckContinue(caller) && MayContinue(s.locked))
            || (caller in s.continuing && step != Continue(caller))
    ensures step == Continue(caller) ==> caller in s.continuing
  {
    hide MoveOf, MayMove, Tagged, MayContinue, ContinueRefusal, Begin;
    RefusalIff(s.locked);
    if step.Run? || step.Continue? {
      var items := if step.Run? then step.items else [];
      BeginsQuietly(s, items, [InputQueued(Primary, items), StatusChanged(Running)]);
      BeginsQuietly(s, [], [StatusChanged(Running)]);
    }
  }

  lemma {:induction false} AdmittedFirst(base: seq<TranscriptItem>, steps: seq<Step>, caller: nat, hi: nat)
    returns (i: nat)
    requires IsRun(New(base), steps) && hi <= |steps| && caller in StateAt(New(base), steps, hi).continuing
    ensures i < hi && steps[i] == CheckContinue(caller) && MayContinue(StateAt(New(base), steps, i).locked)
    ensures forall k :: i < k < hi ==> steps[k] != Continue(caller)
  {
    assert hi > 0;
    hide Apply, Enabled, IsRun, StateAt, MayContinue;
    StepAt(New(base), steps, hi - 1);
    StepContinues(StateAt(New(base), steps, hi - 1), steps[hi - 1], caller);
    i := hi - 1;
    if !(steps[i] == CheckContinue(caller) && MayContinue(StateAt(New(base), steps, i).locked)) {
      i := AdmittedFirst(base, steps, caller, hi - 1);
    }
  }

  /** Over every run: a continuation that goes on to activate its turn found, when it checked, no
      active turn, and an input or a conversation that does not end with an assistant message. */
  lemma ContinuationWasAllowed(base: seq<TranscriptItem>, steps: seq<Step>, j: nat) returns (i: nat)
    requires IsRun(New(base), steps) && j < |steps| && steps[j].Continue?
    ensures i < j && steps[i] == CheckContinue(steps[j].caller)
    ensures MayContinue(StateAt(New(base), steps, i).locked)
  {
    hide IsRun, StateAt, MayContinue;
    StepAt(New(base), steps, j);
    StepContinues(StateAt(New(base), steps, j), steps[j], steps[j].caller);
    i := AdmittedFirst(base, steps, steps[j].caller, j);
  }
}
