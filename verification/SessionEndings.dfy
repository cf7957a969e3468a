/** How a submission ends, read off what happened to it: it sends an abort, a failure or a completed
    turn exactly where its run has a cause for it, over every interleaving; and so its collected
    outcome has a cause (src/core/src/session.rs:153-174, 184-248, 339-480). */
module SessionEndings {
  import opened Basics
  import opened Transcript
  import opened SessionLog
  import opened SessionState
  import opened Session
  import opened SessionRuns
  import opened CollectedText

  // ---------------------------------------------------------------------------
  // Causes

  predicate IsEnding(e: SessionEvent) {
    e.TurnAborted? || e.TurnFailed? || e.TurnCompleted?
  }

  /** This step is a reason for the submission to send this event.
      Aborted: its token is cancelled at the top of the loop or behind a turn, or its turn returns
      an error and is aborted itself or the token is cancelled by then.
      Failed: the turn returns this error otherwise, or the request cannot be built, or there is
      nothing to begin with.
      Completed: the turn returns. */
  predicate Causes(s: Session, step: Step, id: nat, e: SessionEvent) {
    && step.Drive? && step.id == id && id in s.drivers
    && match e
       case TurnAborted =>
         || (id in s.cancelled && (s.drivers[id].pc.LoopTop? || s.drivers[id].pc.Finished?))
         || (step.choice.TurnErrs? && (step.choice.aborted || id in s.cancelled))
       case TurnFailed(error) =>
         || (step.choice.TurnErrs? && step.choice.error == error && !step.choice.aborted && id !in s.cancelled)
         || step.choice == BuildFails(error)
         || (s.drivers[id].pc.CheckingEmpty? && s.locked.conversation == []
             && error == "cannot continue: session history is empty")
       case TurnCompleted(needsFollowUp, lastMessage) => step.choice == TurnReturns(needsFollowUp, lastMessage)
       case _ => false
  }

  ghost predicate HasCause(s: Session, steps: seq<Step>, id: nat, e: SessionEvent, hi: nat)
    requires IsRun(s, steps) && hi <= |steps|
  {
    exists k :: 0 <= k < hi && Causes(StateAt(s, steps, k), steps[k], id, e)
  }

  /** The driver is about to send this event. */
  predicate IsAbout(pc: Pc, e: SessionEvent) {
    match pc
    case Ending(event) => event == e
    case Completing(needsFollowUp, lastMessage) => e == TurnCompleted(needsFollowUp, lastMessage)
    case _ => false
  }

  /** The submission has sent this event or is about to. */
  predicate Announced(s: Session, id: nat, e: SessionEvent) {
    e in Of(s.log, id) || (id in s.drivers && IsAbout(s.drivers[id].pc, e))
  }

  // ---------------------------------------------------------------------------
  // Every ending has a cause, and every cause its ending

  lemma MoveAnnounces(s: Session, id: nat, choice: Choice, e: SessionEvent)
    requires Enabled(s, Drive(id, choice)) && IsEnding(e)
    ensures var d := s.drivers[id];
            var m := MoveOf(s.locked, id, d, id in s.cancelled, choice);
            (e in m.sent || (m.driver.Some? && IsAbout(m.driver.value.pc, e)))
              <==> IsAbout(d.pc, e) || Causes(s, Drive(id, choice), id, e)
  {
    hide Flatten;
  }

  lemma StepAnnounces(s: Session, step: Step, id: nat, e: SessionEvent)
    requires OneLive(s) && Enabled(s, step) && IsEnding(e)
    ensures Announced(Apply(s, step), id, e) <==> Announced(s, id, e) || Causes(s, step, id, e)
  {
    hide MoveOf, MayMove, Of, Tagged, OneLive, IsAbout, Causes;
    if IsDriveOf(step, id) {
      OwnMoveSends(s, id, step.choice);
      MoveAnnounces(s, id, step.choice, e);
      assert step == Drive(id, step.choice);
    } else {
      OthersSendNothing(s, step, id);
      OthersMoveNobody(s, step, id);
      NotAbout(s, step, id, e);
    }
  }

  lemma NotAbout(s: Session, step: Step, id: nat, e: SessionEvent)
    ensures !IsAbout(LoopTop, e)
    ensures !IsDriveOf(step, id) ==> !Causes(s, step, id, e)
  {
  }

  lemma {:induction false} AnnouncedIffCaused(base: seq<TranscriptItem>, steps: seq<Step>, id: nat, e: SessionEvent,
                                              hi: nat)
    requires IsRun(New(base), steps) && hi <= |steps| && IsEnding(e)
    ensures Announced(StateAt(New(base), steps, hi), id, e) <==> HasCause(New(base), steps, id, e, hi)
  {
    hide StateAt, Apply, Enabled, IsRun, Invariant, OneLive, Announced, Causes;
    var s := New(base);
    if hi == 0 {
      NothingAnnounced(base, steps, id, e);
    } else {
      AnnouncedIffCaused(base, steps, id, e, hi - 1);
      NewIsInvariant(base);
      InvariantAt(s, steps, hi - 1, base);
      LiveAt(StateAt(s, steps, hi - 1), base);
      StepAt(s, steps, hi - 1);
      StepAnnounces(StateAt(s, steps, hi - 1), steps[hi - 1], id, e);
    }
  }

  lemma LiveAt(s: Session, base: seq<TranscriptItem>)
    requires Invariant(s, base)
    ensures OneLive(s)
  {
  }

  lemma NothingAnnounced(base: seq<TranscriptItem>, steps: seq<Step>, id: nat, e: SessionEvent)
    requires IsRun(New(base), steps) && IsEnding(e)
    ensures StateAt(New(base), steps, 0) == New(base) && !Announced(New(base), id, e)
  {
    OneEntry([], StatusChanged(Idle), id);
    assert [] + [Entry(None, StatusChanged(Idle))] == [Entry(None, StatusChanged(Idle))];
  }

  /** For every finished submission of every run: it has sent an abort, a failure with this error or
      this completed turn if and only if its run has a cause for it. */
  lemma SentIffCaused(base: seq<TranscriptItem>, steps: seq<Step>, id: nat, e: SessionEvent)
    requires IsRun(New(base), steps) && IsGone(After(New(base), steps), id) && IsEnding(e)
    ensures e in Of(After(New(base), steps).log, id) <==> HasCause(New(base), steps, id, e, |steps|)
  {
    hide IsRun, After, Of, HasCause;
    EndsAt(New(base), steps);
    AnnouncedIffCaused(base, steps, id, e, |steps|);
  }

  // ---------------------------------------------------------------------------
  // What is collected

  /** Nothing follows an abort or a failure but Idle. */
  lemma {:induction false} EndsOnce(events: seq<SessionEvent>, i: nat)
    requires Watch(events).Some? && i < |events| && (events[i].TurnAborted? || events[i].TurnFailed?)
    ensures Watch(events).value.Ended? || Watch(events).value.Over?
    ensures forall k :: i < k < |events| ==> events[k] == StatusChanged(Idle)
    ensures |events| <= i + 2
  {
    var n := |events| - 1;
    if i < n {
      EndsOnce(events[..n], i);
      assert forall k :: 0 <= k < n ==> events[..n][k] == events[k];
      OverIsOver(events);
    }
  }

  lemma {:induction false} OverIsOver(events: seq<SessionEvent>)
    requires Watch(events).Some? && events != []
    ensures var before := Watch(events[..|events| - 1]).value;
            && !before.Over?
            && (before.Ended? ==> events[|events| - 1] == StatusChanged(Idle) && Watch(events).value.Over?
                                  && events[|events| - 1] !in {TurnAborted})
    ensures Watch(events).value.Over? ==> events[|events| - 1] == StatusChanged(Idle)
  {
  }

  /** What a submission collects, by what it has sent: its first completed turn that needs no
      follow-up, else its abort or its failure. */
  lemma OutcomeIsSent(events: seq<SessionEvent>, first: nat, r: Outcome)
    requires Watch(events).Some? && first < |events| && Decides(events[first])
    requires forall k :: 0 <= k < first ==> !Decides(events[k])
    requires r == OutcomeOf(events[..first], events[first])
    ensures r.Collected? <==> exists m: Option<string> :: TurnCompleted(false, m) in events
    ensures r.Aborted? ==> TurnAborted in events
    ensures r.Failed? ==> TurnFailed(r.error) in events
    ensures !r.Collected? && TurnAborted in events ==> r.Aborted?
    ensures forall error :: !r.Collected? && TurnFailed(error) in events ==> r == Failed(error)
  {
    hide Watch, Flatten;
    if events[first].TurnCompleted? {
      assert events[first] == TurnCompleted(false, events[first].lastMessage);
    } else {
      EndsOnce(events, first);
      forall i | 0 <= i < |events| && Decides(events[i]) ensures i == first {
      }
    }
  }

  /** For every finished submission of every run: it collects a text exactly if some turn of it
      returned needing no follow-up; otherwise it is aborted exactly if it had a cause to abort, and
      fails with an error exactly if it had a cause to fail with it. */
  lemma OutcomeHasCause(base: seq<TranscriptItem>, steps: seq<Step>, id: nat) returns (r: Outcome)
    requires IsRun(New(base), steps) && IsGone(After(New(base), steps), id)
    ensures Returns(After(New(base), steps).log, id)
    ensures ResultOf(Of(After(New(base), steps).log, id)) == Some(r)
    ensures r.Collected? <==> exists m :: HasCause(New(base), steps, id, TurnCompleted(false, m), |steps|)
    ensures !r.Collected? ==> (r.Aborted? <==> HasCause(New(base), steps, id, TurnAborted, |steps|))
    ensures forall error ::
      !r.Collected? ==> (r == Failed(error) <==> HasCause(New(base), steps, id, TurnFailed(error), |steps|))
  {
    hide IsRun, After, Of, HasCause, Watch, Returns, ResultOf, OutcomeOf;
    var s := After(New(base), steps);
    var events := Of(s.log, id);
    var first := CollectsLastTurnIff(base, steps, id);
    r := OutcomeOf(events[..first], events[first]);
    FinishedSubmissionsReturn(base, steps, id);
    OutcomeIsSent(events, first, r);
    forall e | IsEnding(e) ensures e in events <==> HasCause(New(base), steps, id, e, |steps|) {
      SentIffCaused(base, steps, id, e);
    }
    assert forall m :: IsEnding(TurnCompleted(false, m));
    assert forall error :: IsEnding(TurnFailed(error));
  }
}
