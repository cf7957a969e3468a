/** The event log of a session: what a submission sends, and the loop that collects its text
    (src/core/src/session.rs:184-248, 345-480). */
module SessionLog {
  import opened Basics
  import opened Transcript

  datatype Status = Idle | Running | Aborting

  datatype InputQueue = Primary | Steering | FollowUp

  datatype SessionEvent =
    | StatusChanged(status: Status)
    | InputQueued(queue: InputQueue, items: seq<TranscriptItem>)
    | TurnStarted
    | TextDelta(delta: string)
    | OtherTurnEvent
    | TurnCompleted(needsFollowUp: bool, lastMessage: Option<string>)
    | TurnFailed(error: string)
    | TurnAborted

  /** An event and the submission whose driver sent it.  Turn events carry that submission's id;
      status events do not. */
  datatype Entry = Entry(from: Option<nat>, event: SessionEvent)

  /** What the driver of submission `id` sent. */
  function Of(log: seq<Entry>, id: nat): seq<SessionEvent> {
    if log == [] then []
    else
      var e := log[|log| - 1];
      Of(log[..|log| - 1], id) + if e.from == Some(id) then [e.event] else []
  }

  lemma {:induction false} OfAppend(a: seq<Entry>, b: seq<Entry>, id: nat)
    ensures Of(a + b, id) == Of(a, id) + Of(b, id)
  {
    if b == [] {
      assert a + b == a;
    } else {
      var n := |b| - 1;
      assert (a + b)[..|a| + n] == a + b[..n];
      OfAppend(a, b[..n], id);
      Associative(Of(a, id), Of(b[..n], id), if b[n].from == Some(id) then [b[n].event] else []);
    }
  }

  // ---------------------------------------------------------------------------
  // The grammar of one submission

  /** (TurnStarted body TurnCompleted)* and then an ending: an abort or a failure inside or
      outside a turn, or nothing more after a turn that needs no follow-up; then Idle. */
  datatype Stage = Between(mayStop: bool) | InTurn | Ended | Over

  const FRESH: Stage := Between(false)

  function Observe(g: Stage, e: SessionEvent): Option<Stage> {
    match e
    case TurnStarted => if g.Between? then Some(InTurn) else None
    case TextDelta(_) => if g.InTurn? then Some(InTurn) else None
    case OtherTurnEvent => if g.InTurn? then Some(InTurn) else None
    case TurnCompleted(needsFollowUp, _) => if g.InTurn? then Some(Between(!needsFollowUp)) else None
    case TurnFailed(_) => if g.Between? || g.InTurn? then Some(Ended) else None
    case TurnAborted => if g.Between? || g.InTurn? then Some(Ended) else None
    case StatusChanged(status) => if status.Idle? && (g.Ended? || g == Between(true)) then Some(Over) else None
    case InputQueued(_, _) => None
  }

  function Watch(events: seq<SessionEvent>): Option<Stage> {
    if events == [] then Some(FRESH)
    else
      var before := Watch(events[..|events| - 1]);
      if before.None? then None else Observe(before.value, events[|events| - 1])
  }

  // ---------------------------------------------------------------------------
  // The text of a submission

  datatype Outcome = Collected(text: string) | Failed(error: string) | Aborted

  /** A turn that needs no follow-up, a failure or an abort decides a submission. */
  predicate Decides(e: SessionEvent) {
    e.TurnFailed? || e.TurnAborted? || (e.TurnCompleted? && !e.needsFollowUp)
  }

  /** The events since the last start of a turn. */
  function CurrentTurn(events: seq<SessionEvent>): seq<SessionEvent> {
    if events == [] then []
    else
      var n := |events| - 1;
      if events[n].TurnStarted? then [] else CurrentTurn(events[..n]) + [events[n]]
  }

  function Deltas(events: seq<SessionEvent>): seq<string> {
    if events == [] then []
    else
      var n := |events| - 1;
      Deltas(events[..n]) + if events[n].TextDelta? then [events[n].delta] else []
  }

  /** What a deciding event means behind these events. */
  function OutcomeOf(before: seq<SessionEvent>, e: SessionEvent): Outcome
    requires Decides(e)
  {
    match e
    case TurnFailed(error) => Failed(error)
    case TurnAborted => Aborted
    case TurnCompleted(_, lastMessage) =>
      var deltas := Deltas(CurrentTurn(before));
      Collected(if deltas != [] then Flatten(deltas) else OrEmpty(lastMessage))
  }

  /** The outcome of a submission: that of its first deciding event. */
  function ResultOf(events: seq<SessionEvent>): Option<Outcome> {
    if events == [] then None
    else
      var n := |events| - 1;
      if ResultOf(events[..n]).Some? then ResultOf(events[..n])
      else if Decides(events[n]) then Some(OutcomeOf(events[..n], events[n]))
      else None
  }

  lemma {:induction false} ResultStays(a: seq<SessionEvent>, b: seq<SessionEvent>)
    requires ResultOf(a).Some?
    ensures ResultOf(a + b) == ResultOf(a)
  {
    if b == [] {
      assert a + b == a;
    } else {
      hide OutcomeOf;
      var n := |b| - 1;
      assert (a + b)[..|a| + n] == a + b[..n];
      ResultStays(a, b[..n]);
    }
  }

  /** The result is that of the first deciding event, wherever it stands. */
  lemma {:induction false} ResultIsFirst(events: seq<SessionEvent>, i: nat)
    requires i < |events| && Decides(events[i]) && forall k :: 0 <= k < i ==> !Decides(events[k])
    ensures ResultOf(events) == Some(OutcomeOf(events[..i], events[i]))
  {
    hide OutcomeOf;
    NothingDecided(events[..i]);
    assert events[..i + 1][..i] == events[..i];
    ResultStays(events[..i + 1], events[i + 1..]);
    assert events[..i + 1] + events[i + 1..] == events;
  }

  lemma {:induction false} NothingDecided(events: seq<SessionEvent>)
    requires forall k :: 0 <= k < |events| ==> !Decides(events[k])
    ensures ResultOf(events).None?
  {
    if events != [] {
      NothingDecided(events[..|events| - 1]);
    }
  }

  predicate IsIdle(e: Entry) {
    e.event.StatusChanged? && e.event.status.Idle?
  }

  /** The collecting loop may return: the submission was decided before some Idle event. */
  ghost predicate Returns(log: seq<Entry>, id: nat) {
    exists k :: 0 <= k < |log| && IsIdle(log[k]) && ResultOf(Of(log[..k], id)).Some?
  }

  /** The collecting loop's variables. */
  datatype Collecting = Collecting(text: string, sawDelta: bool, terminal: Option<Outcome>)

  /** They hold the outcome, or, before it is known, the deltas of the current turn. */
  predicate Tracks(c: Collecting, own: seq<SessionEvent>) {
    var deltas := Deltas(CurrentTurn(own));
    c.terminal == ResultOf(own) && (c.terminal.None? ==> c.sawDelta == (deltas != []) && c.text == Flatten(deltas))
  }

  /** `run_collect_text` over the events received so far; None while it waits for more. */
  method RunCollectText(log: seq<Entry>, id: nat) returns (r: Option<Outcome>)
    ensures r.Some? <==> Returns(log, id)
    ensures r.Some? ==> r == ResultOf(Of(log, id))
  {
    hide Tracks, ResultOf, Of;
    var c := Collecting([], false, None);
    StartTracks(c);
    OfNone(id);
    assert log[..0] == [];
    for i := 0 to |log|
      invariant Tracks(c, Of(log[..i], id))
      invariant forall k :: 0 <= k < i && IsIdle(log[k]) ==> ResultOf(Of(log[..k], id)).None?
    {
      TerminalIsResult(c, Of(log[..i], id));
      OfOneMore(log, i, id);
      if IsIdle(log[i]) && c.terminal.Some? {
        OfSplit(log, i, id);
        ResultStays(Of(log[..i], id), Of(log[i..], id));
        return c.terminal;
      }
      if log[i].from == Some(id) {
        c := HandleOwnEvent(c, log[i].event, Of(log[..i], id));
      }
    }
    r := None;
  }

  method HandleOwnEvent(c: Collecting, e: SessionEvent, ghost own: seq<SessionEvent>) returns (d: Collecting)
    requires Tracks(c, own)
    ensures Tracks(d, own + [e])
  {
    hide OutcomeOf, ResultOf, Deltas, CurrentTurn, Flatten;
    d := c;
    ResultGrows(own, e);
    DeltasGrow(own, e);
    if c.terminal.None? {
      match e {
        case TurnStarted =>
          d := d.(text := [], sawDelta := false);
          assert Flatten<char>([]) == [] by { FlattenNone(); }
        case TextDelta(delta) =>
          d := d.(sawDelta := true, text := c.text + delta);
        case TurnCompleted(needsFollowUp, lastMessage) =>
          if !needsFollowUp {
            d := d.(terminal := Some(Collected(if c.sawDelta then c.text else OrEmpty(lastMessage))));
            CompletedOutcome(own, e);
          }
        case TurnFailed(error) =>
          d := d.(terminal := Some(Failed(error)));
          FailedOutcome(own, e);
        case TurnAborted =>
          d := d.(terminal := Some(Aborted));
          FailedOutcome(own, e);
        case _ =>
      }
    }
  }

  lemma FlattenNone()
    ensures Flatten<char>([]) == []
  {
  }

  lemma StartTracks(c: Collecting)
    requires c == Collecting([], false, None)
    ensures Tracks(c, [])
  {
  }

  lemma TerminalIsResult(c: Collecting, own: seq<SessionEvent>)
    requires Tracks(c, own)
    ensures c.terminal == ResultOf(own)
  {
  }

  lemma OfNone(id: nat)
    ensures Of([], id) == []
  {
  }

  lemma OfOneMore(log: seq<Entry>, i: nat, id: nat)
    requires i < |log|
    ensures Of(log[..i + 1], id)
         == if log[i].from == Some(id) then Of(log[..i], id) + [log[i].event] else Of(log[..i], id)
  {
    assert log[..i + 1][..i] == log[..i];
    assert Of(log[..i], id) + [] == Of(log[..i], id);
  }

  lemma CompletedOutcome(own: seq<SessionEvent>, e: SessionEvent)
    requires e.TurnCompleted? && !e.needsFollowUp
    ensures var deltas := Deltas(CurrentTurn(own));
            OutcomeOf(own, e) == Collected(if deltas != [] then Flatten(deltas) else OrEmpty(e.lastMessage))
  {
  }

  lemma FailedOutcome(own: seq<SessionEvent>, e: SessionEvent)
    requires e.TurnFailed? || e.TurnAborted?
    ensures OutcomeOf(own, e) == if e.TurnFailed? then Failed(e.error) else Aborted
  {
  }

  lemma OfSplit(log: seq<Entry>, i: nat, id: nat)
    requires i <= |log|
    ensures Of(log, id) == Of(log[..i], id) + Of(log[i..], id)
  {
    OfAppend(log[..i], log[i..], id);
    assert log[..i] + log[i..] == log;
  }

  lemma ResultGrows(own: seq<SessionEvent>, e: SessionEvent)
    ensures ResultOf(own + [e]) == if ResultOf(own).Some? then ResultOf(own)
                                   else if Decides(e) then Some(OutcomeOf(own, e)) else None
  {
    hide OutcomeOf;
    assert (own + [e])[..|own|] == own;
  }

  lemma DeltasGrow(own: seq<SessionEvent>, e: SessionEvent)
    ensures var deltas := Deltas(CurrentTurn(own));
            var after := Deltas(CurrentTurn(own + [e]));
            && after == (if e.TurnStarted? then [] else if e.TextDelta? then deltas + [e.delta] else deltas)
            && (e.TextDelta? ==> Flatten(after) == Flatten(deltas) + e.delta)
  {
    hide Flatten;
    assert (own + [e])[..|own|] == own;
    var turn := CurrentTurn(own);
    assert (turn + [e])[..|turn|] == turn;
    assert Deltas(turn) + [] == Deltas(turn);
    if e.TextDelta? {
      FlattenPush(Deltas(turn), e.delta);
    }
  }

  // ---------------------------------------------------------------------------
  // A complete submission is always collected

  /** At a stage where a submission may go idle it has been decided. */
  lemma {:induction false} StopsDecided(events: seq<SessionEvent>)
    requires Watch(events).Some?
    ensures Watch(events).value in {Ended, Over, Between(true)} ==> ResultOf(events).Some?
  {
    if events != [] {
      hide OutcomeOf;
      StopsDecided(events[..|events| - 1]);
    }
  }

  /** The end of a complete submission: an Idle event of its own, and a decision before it. */
  lemma {:induction false} OverByIdle(log: seq<Entry>, id: nat)
    requires Watch(Of(log, id)) == Some(Over)
    ensures Returns(log, id)
  {
    hide Watch, ResultOf;
    if log == [] {
      NothingIsOver();
    } else {
      var n := |log| - 1;
      var front := Of(log[..n], id);
      OfOneMore(log, n, id);
      assert log[..n + 1] == log;
      if log[n].from == Some(id) {
        LastIsIdle(front, log[n].event);
        assert IsIdle(log[n]);
      } else {
        OverByIdle(log[..n], id);
        ReturnsLater(log, n, id);
      }
    }
  }

  lemma NothingIsOver()
    ensures Watch([]) == Some(FRESH)
  {
  }

  lemma LastIsIdle(front: seq<SessionEvent>, e: SessionEvent)
    requires Watch(front + [e]) == Some(Over)
    ensures e == StatusChanged(Idle) && ResultOf(front).Some?
  {
    hide ResultOf;
    assert (front + [e])[..|front|] == front;
    StopsDecided(front);
  }

  lemma ReturnsLater(log: seq<Entry>, n: nat, id: nat)
    requires n <= |log| && Returns(log[..n], id)
    ensures Returns(log, id)
  {
    hide ResultOf, Of;
    var k :| 0 <= k < n && IsIdle(log[..n][k]) && ResultOf(Of(log[..n][..k], id)).Some?;
    assert log[..n][..k] == log[..k];
    assert IsIdle(log[k]);
  }

  /** On any log that holds a complete submission, whatever other events stand between its own,
      the collecting loop returns, and what it returns depends on that submission's events only. */
  method CollectComplete(log: seq<Entry>, id: nat) returns (r: Outcome)
    requires Watch(Of(log, id)) == Some(Over)
    ensures ResultOf(Of(log, id)) == Some(r)
  {
    OverByIdle(log, id);
    var collected := RunCollectText(log, id);
    r := collected.value;
  }
}
