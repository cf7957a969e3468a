/** A session as an interleaved protocol: API callers (`run`, `continue_turn`, `steer`,
    `follow_up`, `abort_current_turn`) and turn drivers step against each other at lock and
    await points (src/core/src/session.rs:100-174, 293-480, 554-588). */
module Session {
  import opened Basics
  import opened Transcript
  import opened SessionLog
  import opened SessionState

  // ---------------------------------------------------------------------------
  // A driver

  /** Where a driver stands; `bootstrap` tells the drains at the top of the loop from those
      behind a completed turn. */
  datatype Pc =
    | LoopTop
    | Feeding
    | Draining(queue: InputQueue, bootstrap: bool)
    | Appending(source: InputQueue, items: seq<TranscriptItem>, atTop: bool)
    | CheckingEmpty
    | Starting
    | Building
    | Streaming
    | Completing(needsFollowUp: bool, lastMessage: Option<string>)
    | Finished(followUp: bool)
    | Ending(event: SessionEvent)
    | Releasing
    | SendingIdle

  datatype Driver = Driver(initial: seq<TranscriptItem>, pc: Pc)

  /** What happens around a driver: the request is built or not, the stream brings an item or an
      event, the turn returns. */
  datatype Choice =
    | Built
    | BuildFails(error: string)
    | ItemArrives(item: TranscriptItem)
    | EventArrives(event: SessionEvent)
    | TurnReturns(needsFollowUp: bool, lastMessage: Option<string>)
    | TurnErrs(error: string, aborted: bool)
    | NoChoice

  /** Where appended items came from; a turn leaves a mark where it starts. */
  datatype Source = FromRun(id: nat) | FromQueue(queue: InputQueue) | TurnBegins(id: nat) | FromTurn(id: nat)

  datatype Batch = Batch(source: Source, items: seq<TranscriptItem>)

  /** One step of a driver: the state it leaves, what it sends and what it appends. */
  datatype Move = Move(locked: Locked, driver: Option<Driver>, sent: seq<SessionEvent>, batches: seq<Batch>)

  const EMPTY_CONVERSATION: string := "cannot continue: session history is empty"

  predicate MayMove(d: Driver, choice: Choice) {
    match d.pc
    case Building => choice.Built? || choice.BuildFails?
    case Streaming =>
      || choice.ItemArrives? || choice.TurnReturns? || choice.TurnErrs?
      || (choice.EventArrives? && (choice.event.TextDelta? || choice.event.OtherTurnEvent?))
    case _ => choice.NoChoice?
  }

  function Quiet(l: Locked, d: Driver, pc: Pc): Move {
    Move(l, Some(d.(pc := pc)), [], [])
  }

  function Sends(l: Locked, d: Driver, event: SessionEvent, pc: Pc): Move {
    Move(l, Some(d.(pc := pc)), [event], [])
  }

  function MoveOf(l: Locked, id: nat, d: Driver, cancelled: bool, choice: Choice): Move
    requires MayMove(d, choice)
  {
    match d.pc
    case LoopTop => Quiet(l, d, if cancelled then Ending(TurnAborted) else Feeding)
    case Feeding =>
      if d.initial != [] then
        Move(Extended(l, d.initial), Some(Driver([], Starting)), [], [Batch(FromRun(id), d.initial)])
      else Quiet(l, d, Draining(Steering, true))
    case Draining(queue, bootstrap) =>
      var (after, items) := Drained(l, queue);
      if items != [] then Quiet(after, d, Appending(queue, items, bootstrap))
      else if queue.Steering? then Quiet(after, d, Draining(FollowUp, bootstrap))
      else Quiet(after, d, if bootstrap then CheckingEmpty else Releasing)
    case Appending(queue, items, atTop) =>
      Move(Extended(l, items), Some(d.(pc := if atTop then Starting else LoopTop)), [],
           [Batch(FromQueue(queue), items)])
    case CheckingEmpty =>
      Quiet(l, d, if l.conversation == [] then Ending(TurnFailed(EMPTY_CONVERSATION)) else Starting)
    case Starting => Move(l, Some(d.(pc := Building)), [TurnStarted], [Batch(TurnBegins(id), [])])
    case Building =>
      Quiet(l, d, if choice.Built? then Streaming else Ending(TurnFailed(choice.error)))
    case Streaming =>
      (match choice
       case ItemArrives(item) => Move(Extended(l, [item]), Some(d), [], [Batch(FromTurn(id), [item])])
       case EventArrives(event) => Sends(l, d, event, Streaming)
       case TurnReturns(needsFollowUp, lastMessage) => Quiet(l, d, Completing(needsFollowUp, lastMessage))
       case TurnErrs(error, aborted) =>
         Quiet(l, d, Ending(if cancelled || aborted then TurnAborted else TurnFailed(error)))
       case _ => Quiet(l, d, d.pc))
    case Completing(needsFollowUp, lastMessage) =>
      Sends(l, d, TurnCompleted(needsFollowUp, lastMessage), Finished(needsFollowUp))
    case Finished(followUp) =>
      Quiet(l, d, if cancelled then Ending(TurnAborted) else if followUp then LoopTop else Draining(Steering, false))
    case Ending(event) => Sends(l, d, event, Releasing)
    case Releasing => Quiet(Released(l), d, SendingIdle)
    case SendingIdle => Move(l, None, [StatusChanged(Idle)], [])
  }

  // ---------------------------------------------------------------------------
  // The session

  /** A `run` or `continue_turn` call that has activated its turn: events to send, then the spawn. */
  datatype Starter = Starter(initial: seq<TranscriptItem>, toSend: seq<SessionEvent>)

  /** An `abort_current_turn` call: the token it holds, and whether its event is out. */
  datatype Aborter = Aborter(target: nat, sent: bool)

  datatype Session = Session(
    locked: Locked,
    nextId: nat,
    log: seq<Entry>,
    starters: map<nat, Starter>,          // by submission
    drivers: map<nat, Driver>,            // by submission
    cancelled: set<nat>,                  // submissions whose token is cancelled
    aborters: map<nat, Aborter>,          // by caller
    announcers: map<nat, SessionEvent>,   // callers with an InputQueued event to send
    continuing: set<nat>,                 // callers between the regions of `continue_turn`
    // what has happened
    started: seq<nat>,
    batches: seq<Batch>,
    pushed: seq<(InputQueue, Input)>,
    submitted: map<nat, seq<TranscriptItem>>)

  datatype Step =
    | Run(items: seq<TranscriptItem>)
    | CheckContinue(caller: nat)
    | Continue(caller: nat)
    | Announce(id: nat)
    | Spawn(id: nat)
    | Push(caller: nat, queue: InputQueue, input: Input)
    | AnnouncePush(caller: nat)
    | RequestAbort(caller: nat)
    | AnnounceAbort(caller: nat)
    | Cancel(caller: nat)
    | Drive(id: nat, choice: Choice)

  predicate Enabled(s: Session, step: Step) {
    match step
    case Run(_) => true
    case CheckContinue(caller) => caller !in s.continuing
    case Continue(caller) => caller in s.continuing
    case Announce(id) => id in s.starters && s.starters[id].toSend != []
    case Spawn(id) => id in s.starters && s.starters[id].toSend == []
    case Push(caller, queue, _) => caller !in s.announcers && !queue.Primary?
    case AnnouncePush(caller) => caller in s.announcers
    case RequestAbort(caller) => caller !in s.aborters
    case AnnounceAbort(caller) => caller in s.aborters && !s.aborters[caller].sent
    case Cancel(caller) => caller in s.aborters && s.aborters[caller].sent
    case Drive(id, choice) => id in s.drivers && MayMove(s.drivers[id], choice)
  }

  /** A call that finds no active turn takes the next submission id. */
  function Begin(s: Session, items: seq<TranscriptItem>, toSend: seq<SessionEvent>): Session {
    if s.locked.active.Some? then s
    else s.(locked := Activate(s.locked, s.nextId),
            nextId := s.nextId + 1,
            starters := s.starters[s.nextId := Starter(items, toSend)],
            started := s.started + [s.nextId],
            submitted := s.submitted[s.nextId := items])
  }

  function Tagged(from: Option<nat>, events: seq<SessionEvent>): seq<Entry> {
    seq(|events|, i requires 0 <= i < |events| => Entry(from, events[i]))
  }

  function Apply(s: Session, step: Step): Session
    requires Enabled(s, step)
  {
    match step
    case Run(items) => Begin(s, items, [InputQueued(Primary, items), StatusChanged(Running)])
    case CheckContinue(caller) =>
      if ContinueRefusal(s.locked).Some? then s else s.(continuing := s.continuing + {caller})
    case Continue(caller) => Begin(s, [], [StatusChanged(Running)]).(continuing := s.continuing - {caller})
    case Announce(id) =>
      var starter := s.starters[id];
      s.(log := s.log + [Entry(None, starter.toSend[0])],
         starters := s.starters[id := starter.(toSend := starter.toSend[1..])])
    case Spawn(id) =>
      s.(starters := s.starters - {id}, drivers := s.drivers[id := Driver(s.starters[id].initial, LoopTop)])
    case Push(caller, queue, input) =>
      s.(locked := Pushed(s.locked, queue, input), pushed := s.pushed + [(queue, input)],
         announcers := s.announcers[caller := InputQueued(queue, input)])
    case AnnouncePush(caller) =>
      s.(log := s.log + [Entry(None, s.announcers[caller])], announcers := s.announcers - {caller})
    case RequestAbort(caller) =>
      if s.locked.active.None? then s
      else s.(locked := AbortRequested(s.locked),
              aborters := s.aborters[caller := Aborter(s.locked.active.value, false)])
    case AnnounceAbort(caller) =>
      s.(log := s.log + [Entry(None, StatusChanged(Aborting))],
         aborters := s.aborters[caller := s.aborters[caller].(sent := true)])
    case Cancel(caller) =>
      s.(cancelled := s.cancelled + {s.aborters[caller].target}, aborters := s.aborters - {caller})
    case Drive(id, choice) =>
      var m := MoveOf(s.locked, id, s.drivers[id], id in s.cancelled, choice);
      s.(locked := m.locked,
         drivers := if m.driver.Some? then s.drivers[id := m.driver.value] else s.drivers - {id},
         log := s.log + Tagged(Some(id), m.sent),
         batches := s.batches + m.batches)
  }

  function New(conversation: seq<TranscriptItem>): Session {
    Session(Locked(conversation, [], [], Idle, None), 1, [Entry(None, StatusChanged(Idle))], map[], map[], {}, map[],
            map[], {},
            [], [], [], map[])
  }

  /** `steps` is a run from `s`. */
  predicate IsRun(s: Session, steps: seq<Step>)
    decreases |steps|
  {
    steps == [] || (Enabled(s, steps[0]) && IsRun(Apply(s, steps[0]), steps[1..]))
  }

  function After(s: Session, steps: seq<Step>): Session
    requires IsRun(s, steps)
    decreases |steps|
  {
    if steps == [] then s else After(Apply(s, steps[0]), steps[1..])
  }

  // ---------------------------------------------------------------------------
  // One live driver

  /** The submissions that are between activation and release. */
  predicate Live(s: Session, id: nat) {
    id in s.starters || (id in s.drivers && !s.drivers[id].pc.SendingIdle?)
  }

  /** Idle means no active turn; only the active submission is live; ids are used in order. */
  ghost predicate OneLive(s: Session) {
    && (s.locked.status.Idle? <==> s.locked.active.None?)
    && (s.locked.active.Some? ==> Live(s, s.locked.active.value))
    && (forall id: nat :: Live(s, id) ==> s.locked.active == Some(id))
    && (forall id: nat :: id in s.starters ==> id !in s.drivers)
    && (forall id: nat :: id in s.starters || id in s.drivers ==> id in s.submitted)
    && (forall id: nat :: id in s.submitted ==> id < s.nextId)
    && (forall i :: 0 <= i < |s.started| ==> s.started[i] < s.nextId)
    && (forall i, j :: 0 <= i < j < |s.started| ==> s.started[i] < s.started[j])
  }

  lemma BeginKeepsOneLive(s: Session, items: seq<TranscriptItem>, toSend: seq<SessionEvent>)
    requires OneLive(s)
    ensures OneLive(Begin(s, items, toSend))
  {
    if s.locked.active.None? {
      var t := Begin(s, items, toSend);
      assert Live(t, s.nextId);
      assert forall id: nat :: Live(t, id) ==> id == s.nextId || Live(s, id);
    }
  }

  lemma MoveKeepsLive(l: Locked, id: nat, d: Driver, cancelled: bool, choice: Choice)
    requires MayMove(d, choice)
    ensures var m := MoveOf(l, id, d, cancelled, choice);
            && (m.driver.None? <==> d.pc.SendingIdle?)
            && (m.driver.Some? && m.driver.value.pc.SendingIdle? <==> d.pc.Releasing?)
            && (if d.pc.Releasing? then m.locked.active == None && m.locked.status.Idle?
                else m.locked.active == l.active && m.locked.status == l.status)
            && l.conversation <= m.locked.conversation
  {
  }

  lemma ContinueKeepsOneLive(s: Session, caller: nat)
    requires OneLive(s)
    ensures OneLive(Begin(s, [], [StatusChanged(Running)]).(continuing := s.continuing - {caller}))
  {
    BeginKeepsOneLive(s, [], [StatusChanged(Running)]);
    var b := Begin(s, [], [StatusChanged(Running)]);
    var t := b.(continuing := s.continuing - {caller});
    assert forall id: nat :: Live(t, id) <==> Live(b, id);
  }

  lemma SpawnKeepsOneLive(s: Session, id: nat)
    requires OneLive(s) && Enabled(s, Spawn(id))
    ensures OneLive(Apply(s, Spawn(id)))
  {
    var t := Apply(s, Spawn(id));
    assert Live(s, id) && Live(t, id);
    assert forall k: nat :: Live(t, k) ==> Live(s, k);
  }

  lemma AnnounceKeepsOneLive(s: Session, id: nat)
    requires OneLive(s) && Enabled(s, Announce(id))
    ensures OneLive(Apply(s, Announce(id)))
  {
    var t := Apply(s, Announce(id));
    assert forall k: nat :: Live(t, k) <==> Live(s, k);
  }

  lemma DriveKeepsOneLive(s: Session, id: nat, choice: Choice)
    requires OneLive(s) && Enabled(s, Drive(id, choice))
    ensures OneLive(Apply(s, Drive(id, choice)))
  {
    hide MoveOf, MayMove;
    MoveKeepsLive(s.locked, id, s.drivers[id], id in s.cancelled, choice);
    var t := Apply(s, Drive(id, choice));
    assert !s.drivers[id].pc.SendingIdle? ==> Live(s, id);
    assert forall k: nat :: k != id ==> (Live(t, k) <==> Live(s, k));
    assert Live(t, id) <==> Live(s, id) && !s.drivers[id].pc.Releasing?;
  }

  lemma OthersKeepOneLive(s: Session, step: Step)
    requires OneLive(s) && Enabled(s, step)
    requires !step.Run? && !step.Continue? && !step.Spawn? && !step.Announce? && !step.Drive?
    ensures OneLive(Apply(s, step))
  {
    hide MoveOf, MayMove, Begin, Tagged;
    var t := Apply(s, step);
    assert forall k: nat :: Live(t, k) <==> Live(s, k);
  }

  lemma {:induction false} StepKeepsOneLive(s: Session, step: Step)
    requires OneLive(s) && Enabled(s, step)
    ensures OneLive(Apply(s, step))
  {
    hide MoveOf, MayMove, Begin;
    match step
    case Run(items) => BeginKeepsOneLive(s, items, [InputQueued(Primary, items), StatusChanged(Running)]);
    case Continue(caller) => ContinueKeepsOneLive(s, caller);
    case Spawn(id) => SpawnKeepsOneLive(s, id);
    case Announce(id) => AnnounceKeepsOneLive(s, id);
    case Drive(id, choice) => DriveKeepsOneLive(s, id, choice);
    case _ => OthersKeepOneLive(s, step);
  }

  // ---------------------------------------------------------------------------
  // The grammar of every submission

  /** The stage of the grammar at which a driver stands. */
  predicate PcFits(pc: Pc, g: Stage) {
    match pc
    case LoopTop => g.Between?
    case Feeding => g.Between?
    case Draining(_, bootstrap) => g.Between? && (!bootstrap ==> g.mayStop)
    case Appending(_, _, atTop) => g.Between? && (!atTop ==> g.mayStop)
    case CheckingEmpty => g.Between?
    case Starting => g.Between?
    case Building => g.InTurn?
    case Streaming => g.InTurn?
    case Completing(_, _) => g.InTurn?
    case Finished(followUp) => g == Between(!followUp)
    case Ending(event) => (g.Between? || g.InTurn?) && (event.TurnAborted? || event.TurnFailed?)
    case Releasing => g.Ended? || g == Between(true)
    case SendingIdle => g.Ended? || g == Between(true)
  }

  /** What a submission has sent fits the place where it stands. */
  predicate FitsLog(s: Session, id: nat) {
    var events := Of(s.log, id);
    if id in s.drivers then Watch(events).Some? && PcFits(s.drivers[id].pc, Watch(events).value)
    else if id in s.starters || id !in s.submitted then events == []
    else Watch(events) == Some(Over)
  }

  lemma MoveFits(l: Locked, id: nat, d: Driver, cancelled: bool, choice: Choice, g: Stage)
    requires MayMove(d, choice) && PcFits(d.pc, g)
    ensures var m := MoveOf(l, id, d, cancelled, choice);
            && |m.sent| <= 1
            && var after := if m.sent == [] then Some(g) else Observe(g, m.sent[0]);
            && after.Some?
            && if m.driver.Some? then PcFits(m.driver.value.pc, after.value) else after == Some(Over)
  {
  }

  lemma OfTagged(log: seq<Entry>, from: Option<nat>, events: seq<SessionEvent>, id: nat)
    requires |events| <= 1
    ensures Of(log + Tagged(from, events), id) == Of(log, id) + if from == Some(id) then events else []
  {
    if events == [] {
      assert log + Tagged(from, events) == log;
      assert Of(log, id) + [] == Of(log, id);
    } else {
      assert (log + Tagged(from, events))[..|log|] == log;
    }
  }

  lemma WatchOneMore(events: seq<SessionEvent>, sent: seq<SessionEvent>)
    requires Watch(events).Some? && |sent| <= 1
    ensures Watch(events + sent) == if sent == [] then Watch(events) else Observe(Watch(events).value, sent[0])
  {
    if sent == [] {
      assert events + sent == events;
    } else {
      assert (events + sent)[..|events|] == events;
    }
  }

  lemma DriveKeepsOwnFit(s: Session, id: nat, choice: Choice)
    requires OneLive(s) && FitsLog(s, id) && Enabled(s, Drive(id, choice))
    ensures FitsLog(Apply(s, Drive(id, choice)), id)
  {
    hide MoveOf, MayMove, PcFits, Observe, Watch, Of, Tagged;
    var d := s.drivers[id];
    var m := MoveOf(s.locked, id, d, id in s.cancelled, choice);
    MoveFits(s.locked, id, d, id in s.cancelled, choice, Watch(Of(s.log, id)).value);
    OfTagged(s.log, Some(id), m.sent, id);
    WatchOneMore(Of(s.log, id), m.sent);
  }

  lemma DriveKeepsOtherFit(s: Session, mover: nat, choice: Choice, id: nat)
    requires FitsLog(s, id) && Enabled(s, Drive(mover, choice)) && id != mover
    ensures FitsLog(Apply(s, Drive(mover, choice)), id)
  {
    hide MoveOf, MayMove, PcFits, Watch, Of, Tagged;
    var d := s.drivers[mover];
    var m := MoveOf(s.locked, mover, d, mover in s.cancelled, choice);
    MoveFeedsNobodyElse(s.locked, mover, d, mover in s.cancelled, choice, id);
    OfTagged(s.log, Some(mover), m.sent, id);
    assert Of(s.log, id) + [] == Of(s.log, id);
  }

  lemma BeginKeepsFit(s: Session, items: seq<TranscriptItem>, toSend: seq<SessionEvent>, id: nat)
    requires OneLive(s) && FitsLog(s, id)
    ensures FitsLog(Begin(s, items, toSend), id)
  {
    hide PcFits, Watch, Of;
  }

  lemma OneEntry(log: seq<Entry>, event: SessionEvent, id: nat)
    ensures Of(log + [Entry(None, event)], id) == Of(log, id)
  {
    assert (log + [Entry(None, event)])[..|log|] == log;
    assert Of(log, id) + [] == Of(log, id);
  }

  lemma NothingFits(pc: Pc)
    requires pc.LoopTop?
    ensures Watch([]).Some? && PcFits(pc, Watch([]).value)
  {
  }

  lemma {:induction false} StepKeepsFit(s: Session, step: Step, id: nat)
    requires OneLive(s) && FitsLog(s, id) && Enabled(s, step)
    ensures FitsLog(Apply(s, step), id)
  {
    hide MoveOf, MayMove, PcFits, Watch, Of, Begin, OneLive;
    match step
    case Drive(mover, choice) =>
      if id == mover {
        DriveKeepsOwnFit(s, id, choice);
      } else {
        DriveKeepsOtherFit(s, mover, choice, id);
      }
    case Announce(k) => OneEntry(s.log, s.starters[k].toSend[0], id);
    case AnnouncePush(caller) => OneEntry(s.log, s.announcers[caller], id);
    case AnnounceAbort(caller) => OneEntry(s.log, StatusChanged(Aborting), id);
    case Spawn(k) => SpawnKeepsFit(s, k, id);
    case Run(items) => BeginKeepsFit(s, items, [InputQueued(Primary, items), StatusChanged(Running)], id);
    case Continue(_) => BeginKeepsFit(s, [], [StatusChanged(Running)], id);
    case _ =>
  }

  lemma SpawnKeepsFit(s: Session, k: nat, id: nat)
    requires OneLive(s) && FitsLog(s, id) && Enabled(s, Spawn(k))
    ensures FitsLog(Apply(s, Spawn(k)), id)
  {
    hide PcFits, Watch, Of;
    NothingFits(LoopTop);
  }

  // ---------------------------------------------------------------------------
  // Queued inputs

  /** All items pushed to a queue. */
  function PushedTo(pushed: seq<(InputQueue, Input)>, queue: InputQueue): seq<TranscriptItem> {
    if pushed == [] then []
    else
      var n := |pushed| - 1;
      PushedTo(pushed[..n], queue) + if pushed[n].0 == queue then pushed[n].1 else []
  }

  /** All items appended from a source. */
  function AppendedFrom(batches: seq<Batch>, source: Source): seq<TranscriptItem> {
    if batches == [] then []
    else
      var n := |batches| - 1;
      AppendedFrom(batches[..n], source) + if batches[n].source == source then batches[n].items else []
  }

  function AllAppended(batches: seq<Batch>): seq<TranscriptItem> {
    if batches == [] then [] else AllAppended(batches[..|batches| - 1]) + batches[|batches| - 1].items
  }

  /** The items of a queue that a driver has drained and not yet appended. */
  function Hands(d: Driver, queue: InputQueue): seq<TranscriptItem> {
    if d.pc.Appending? && d.pc.source == queue then d.pc.items else []
  }

  function InHands(s: Session, queue: InputQueue): seq<TranscriptItem> {
    if s.locked.active.Some? && s.locked.active.value in s.drivers
    then Hands(s.drivers[s.locked.active.value], queue) else []
  }

  /** The items ever pushed to a queue are, in order, those appended, then those in the driver's
      hands, then those still queued. */
  predicate Conserves(s: Session, queue: InputQueue) {
    PushedTo(s.pushed, queue)
      == AppendedFrom(s.batches, FromQueue(queue)) + InHands(s, queue) + Flatten(QueueOf(s.locked, queue))
  }

  /** The conversation is the one it began with and the batches appended since. */
  predicate Records(s: Session, base: seq<TranscriptItem>) {
    s.locked.conversation == base + AllAppended(s.batches)
  }

  lemma BatchOneMore(batches: seq<Batch>, more: seq<Batch>, source: Source)
    requires |more| <= 1
    ensures AppendedFrom(batches + more, source) == AppendedFrom(batches, source) + ItemsFrom(more, source)
    ensures AllAppended(batches + more) == AllAppended(batches) + Items(more)
  {
    if more == [] {
      assert batches + more == batches;
      assert AppendedFrom(batches, source) + [] == AppendedFrom(batches, source);
      assert AllAppended(batches) + [] == AllAppended(batches);
    } else {
      assert (batches + more)[..|batches|] == batches;
    }
  }

  function Items(batches: seq<Batch>): seq<TranscriptItem> {
    if batches == [] then [] else batches[0].items
  }

  function ItemsFrom(batches: seq<Batch>, source: Source): seq<TranscriptItem> {
    if batches != [] && batches[0].source == source then batches[0].items else []
  }

  /** A move appends to the conversation what it says, and takes nothing from it. */
  lemma MoveRecords(l: Locked, id: nat, d: Driver, cancelled: bool, choice: Choice)
    requires MayMove(d, choice)
    ensures var m := MoveOf(l, id, d, cancelled, choice);
            |m.batches| <= 1 && m.locked.conversation == l.conversation + Items(m.batches)
  {
    assert l.conversation + [] == l.conversation;
  }

  lemma DrainConserves(l: Locked, taken: InputQueue, queue: InputQueue)
    requires !queue.Primary?
    ensures var (after, items) := Drained(l, taken);
            Flatten(QueueOf(after, queue)) == if queue == taken then [] else Flatten(QueueOf(l, queue))
    ensures Drained(l, taken).1 == Flatten(QueueOf(l, taken))
  {
  }

  /** What a move appends, keeps in hand and leaves queued was in hand and queued before. */
  lemma MoveConserves(l: Locked, id: nat, d: Driver, cancelled: bool, choice: Choice, queue: InputQueue)
    requires MayMove(d, choice) && !queue.Primary?
    ensures var m := MoveOf(l, id, d, cancelled, choice);
            ItemsFrom(m.batches, FromQueue(queue)) + (if m.driver.Some? then Hands(m.driver.value, queue) else [])
              + Flatten(QueueOf(m.locked, queue))
            == Hands(d, queue) + Flatten(QueueOf(l, queue))
  {
    hide Flatten;
    var queued := Flatten(QueueOf(l, queue));
    assert [] + [] + queued == [] + queued;
    match d.pc
    case Draining(taken, _) =>
      hide Drained;
      DrainConserves(l, taken, queue);
      if queue == taken {
        assert [] + queued + [] == [] + queued;
      } else {
        SameQueue(l, taken, queue);
      }
    case Appending(source, items, _) =>
      assert items + [] + queued == items + queued;
    case _ =>
  }

  lemma SameQueue(l: Locked, taken: InputQueue, queue: InputQueue)
    requires queue != taken
    ensures QueueOf(Drained(l, taken).0, queue) == QueueOf(l, queue)
  {
  }

  lemma DriveConserves(s: Session, id: nat, choice: Choice, queue: InputQueue)
    requires OneLive(s) && Conserves(s, queue) && !queue.Primary? && Enabled(s, Drive(id, choice))
    ensures Conserves(Apply(s, Drive(id, choice)), queue)
  {
    hide MoveOf, MayMove, Hands, AppendedFrom, PushedTo, Flatten, QueueOf, ItemsFrom, InHands, OneLive;
    var d := s.drivers[id];
    var m := MoveOf(s.locked, id, d, id in s.cancelled, choice);
    var t := Apply(s, Drive(id, choice));
    MoveConserves(s.locked, id, d, id in s.cancelled, choice, queue);
    MoveRecords(s.locked, id, d, id in s.cancelled, choice);
    MoveKeepsLive(s.locked, id, d, id in s.cancelled, choice);
    BatchOneMore(s.batches, m.batches, FromQueue(queue));
    HandsMove(s, id, choice, queue);
    Regroup(AppendedFrom(s.batches, FromQueue(queue)), ItemsFrom(m.batches, FromQueue(queue)),
            InHands(t, queue), Flatten(QueueOf(m.locked, queue)), InHands(s, queue), Flatten(QueueOf(s.locked, queue)));
  }

  lemma Regroup<T>(appended: seq<T>, more: seq<T>, hands: seq<T>, queued: seq<T>, oldHands: seq<T>, oldQueued: seq<T>)
    requires more + hands + queued == oldHands + oldQueued
    ensures appended + more + hands + queued == appended + oldHands + oldQueued
  {
    assert appended + more + hands + queued == appended + (more + hands + queued);
    Associative(appended, oldHands, oldQueued);
  }

  /** The hands of the session are those of the driver that moves, or nobody's. */
  lemma HandsMove(s: Session, id: nat, choice: Choice, queue: InputQueue)
    requires OneLive(s) && Enabled(s, Drive(id, choice))
    ensures var m := MoveOf(s.locked, id, s.drivers[id], id in s.cancelled, choice);
            var t := Apply(s, Drive(id, choice));
            if s.drivers[id].pc.SendingIdle? then
              && InHands(t, queue) == InHands(s, queue) && m.locked == s.locked
              && ItemsFrom(m.batches, FromQueue(queue)) == []
            else
              && InHands(s, queue) == Hands(s.drivers[id], queue)
              && m.driver.Some? && InHands(t, queue) == Hands(m.driver.value, queue)
  {
    hide MoveOf, MayMove;
    var d := s.drivers[id];
    MoveKeepsLive(s.locked, id, d, id in s.cancelled, choice);
    if !d.pc.SendingIdle? {
      assert Live(s, id);
    }
    if d.pc.SendingIdle? {
      IdleMovesNothing(s.locked, id, d, id in s.cancelled, choice, queue);
    }
    if d.pc.Releasing? {
      ReleasingHoldsNothing(s.locked, id, d, id in s.cancelled, choice, queue);
    }
  }

  lemma IdleMovesNothing(l: Locked, id: nat, d: Driver, cancelled: bool, choice: Choice, queue: InputQueue)
    requires MayMove(d, choice) && d.pc.SendingIdle?
    ensures var m := MoveOf(l, id, d, cancelled, choice);
            m.locked == l && ItemsFrom(m.batches, FromQueue(queue)) == []
  {
  }

  lemma ReleasingHoldsNothing(l: Locked, id: nat, d: Driver, cancelled: bool, choice: Choice, queue: InputQueue)
    requires MayMove(d, choice) && d.pc.Releasing?
    ensures var m := MoveOf(l, id, d, cancelled, choice);
            m.driver.Some? && Hands(m.driver.value, queue) == []
  {
  }

  lemma PushConserves(s: Session, caller: nat, to: InputQueue, input: Input, queue: InputQueue)
    requires Conserves(s, queue) && !queue.Primary? && Enabled(s, Push(caller, to, input))
    ensures Conserves(Apply(s, Push(caller, to, input)), queue)
  {
    hide Flatten, AppendedFrom;
    var t := Apply(s, Push(caller, to, input));
    assert t.pushed[..|s.pushed|] == s.pushed;
    var kept := AppendedFrom(s.batches, FromQueue(queue)) + InHands(s, queue);
    assert InHands(t, queue) == InHands(s, queue);
    if to == queue {
      FlattenPush(QueueOf(s.locked, queue), input);
      Associative(kept, Flatten(QueueOf(s.locked, queue)), input);
    } else {
      assert PushedTo(s.pushed, queue) + [] == PushedTo(s.pushed, queue);
    }
  }

  lemma BeginConserves(s: Session, items: seq<TranscriptItem>, toSend: seq<SessionEvent>, queue: InputQueue)
    requires OneLive(s) && Conserves(s, queue)
    ensures Conserves(Begin(s, items, toSend), queue)
  {
    hide Flatten, AppendedFrom, PushedTo;
    assert s.nextId in s.drivers ==> s.nextId in s.submitted;
  }

  lemma SpawnConserves(s: Session, id: nat, queue: InputQueue)
    requires OneLive(s) && Conserves(s, queue) && Enabled(s, Spawn(id))
    ensures Conserves(Apply(s, Spawn(id)), queue)
  {
    hide Flatten, AppendedFrom, PushedTo;
    assert Live(s, id) && id !in s.drivers;
  }

  lemma {:induction false} StepConserves(s: Session, step: Step, queue: InputQueue)
    requires OneLive(s) && Conserves(s, queue) && !queue.Primary? && Enabled(s, step)
    ensures Conserves(Apply(s, step), queue)
  {
    hide MoveOf, MayMove, Begin, Flatten, AppendedFrom, PushedTo, OneLive;
    match step
    case Drive(id, choice) => DriveConserves(s, id, choice, queue);
    case Push(caller, to, input) => PushConserves(s, caller, to, input, queue);
    case Run(items) => BeginConserves(s, items, [InputQueued(Primary, items), StatusChanged(Running)], queue);
    case Continue(caller) => BeginConserves(s, [], [StatusChanged(Running)], queue);
    case Spawn(id) => SpawnConserves(s, id, queue);
    case _ =>
  }

  lemma StepRecords(s: Session, step: Step, base: seq<TranscriptItem>)
    requires Records(s, base) && Enabled(s, step)
    ensures Records(Apply(s, step), base)
    ensures s.locked.conversation <= Apply(s, step).locked.conversation
  {
    hide MoveOf, MayMove, AllAppended;
    if step.Drive? {
      var id := step.id;
      var m := MoveOf(s.locked, id, s.drivers[id], id in s.cancelled, step.choice);
      MoveRecords(s.locked, id, s.drivers[id], id in s.cancelled, step.choice);
      BatchOneMore(s.batches, m.batches, FromRun(id));
      Associative(base, AllAppended(s.batches), Items(m.batches));
    }
  }

  // ---------------------------------------------------------------------------
  // The input of a run

  /** The input of a run that is still with its caller or its driver; None once the driver is gone. */
  function Held(s: Session, id: nat): Option<seq<TranscriptItem>> {
    if id in s.starters then Some(s.starters[id].initial)
    else if id in s.drivers then Some(s.drivers[id].initial)
    else None
  }

  /** An input is appended whole and at most once, and before the first turn starts; only a run
      that ends without a turn may drop it. */
  predicate InputKept(input: seq<TranscriptItem>, appended: seq<TranscriptItem>, held: Option<seq<TranscriptItem>>,
                      turnStarted: bool) {
    && (if held.Some? then appended + held.value == input && (appended == [] || held.value == [])
        else appended == [] || appended == input)
    && (turnStarted ==> appended == input)
  }

  predicate RunFits(s: Session, id: nat) {
    if id !in s.submitted then AppendedFrom(s.batches, FromRun(id)) == [] && Of(s.log, id) == []
    else
      && InputKept(s.submitted[id], AppendedFrom(s.batches, FromRun(id)), Held(s, id), TurnStarted in Of(s.log, id))
      && (id in s.starters ==> Of(s.log, id) == [])
      && (id in s.drivers ==> IsFed(s.drivers[id]))
  }

  /** Past the feeding, a driver holds no initial items any more, unless it is ending; it drains
      the two queues only. */
  predicate IsFed(d: Driver) {
    && (d.initial == [] || d.pc in {LoopTop, Feeding, Releasing, SendingIdle} || d.pc.Ending?)
    && (d.pc.Ending? ==> d.pc.event.TurnAborted? || d.pc.event.TurnFailed?)
    && (d.pc.Draining? ==> !d.pc.queue.Primary?)
  }

  lemma MoveFeeds(l: Locked, id: nat, d: Driver, cancelled: bool, choice: Choice)
    requires MayMove(d, choice) && IsFed(d)
    ensures var m := MoveOf(l, id, d, cancelled, choice);
            var appended := ItemsFrom(m.batches, FromRun(id));
            && |m.sent| <= 1 && |m.batches| <= 1
            && Feeds(d.initial, appended, if m.driver.Some? then Some(m.driver.value.initial) else None,
                     TurnStarted in m.sent)
            && (m.driver.Some? ==> IsFed(m.driver.value))
  {
    hide Flatten;
    assert d.initial + [] == d.initial;
  }

  lemma MoveFeedsNobodyElse(l: Locked, id: nat, d: Driver, cancelled: bool, choice: Choice, other: nat)
    requires MayMove(d, choice) && other != id
    ensures ItemsFrom(MoveOf(l, id, d, cancelled, choice).batches, FromRun(other)) == []
    ensures |MoveOf(l, id, d, cancelled, choice).batches| <= 1 && |MoveOf(l, id, d, cancelled, choice).sent| <= 1
  {
  }

  /** One move: the input stays, or goes over whole; a turn starts only when it is gone. */
  predicate Feeds(initial: seq<TranscriptItem>, appended: seq<TranscriptItem>, left: Option<seq<TranscriptItem>>,
                  starts: bool) {
    && (if left.Some? then appended + left.value == initial && (appended == [] || left.value == []) else appended == [])
    && (starts ==> initial == [] && left.Some?)
  }

  lemma FeedingKeepsInput(input: seq<TranscriptItem>, before: seq<TranscriptItem>, initial: seq<TranscriptItem>,
                          turnStarted: bool,
                          appended: seq<TranscriptItem>, left: Option<seq<TranscriptItem>>, starts: bool)
    requires InputKept(input, before, Some(initial), turnStarted) && Feeds(initial, appended, left, starts)
    ensures InputKept(input, before + appended, left, turnStarted || starts)
  {
    assert before + [] == before && appended + [] == appended && [] + appended == appended;
    if left.Some? {
      Associative(before, appended, left.value);
    }
  }

  lemma DriveKeepsOwnRun(s: Session, id: nat, choice: Choice)
    requires OneLive(s) && RunFits(s, id) && Enabled(s, Drive(id, choice))
    ensures RunFits(Apply(s, Drive(id, choice)), id)
  {
    hide MoveOf, MayMove, IsFed, AppendedFrom, Of, Tagged, ItemsFrom, InputKept, Feeds;
    var d := s.drivers[id];
    var m := MoveOf(s.locked, id, d, id in s.cancelled, choice);
    MoveFeeds(s.locked, id, d, id in s.cancelled, choice);
    BatchOneMore(s.batches, m.batches, FromRun(id));
    OfTagged(s.log, Some(id), m.sent, id);
    FeedingKeepsInput(s.submitted[id], AppendedFrom(s.batches, FromRun(id)), d.initial, TurnStarted in Of(s.log, id),
                      ItemsFrom(m.batches, FromRun(id)), if m.driver.Some? then Some(m.driver.value.initial) else None,
                      TurnStarted in m.sent);
  }

  lemma DriveKeepsOtherRun(s: Session, mover: nat, choice: Choice, id: nat)
    requires RunFits(s, id) && Enabled(s, Drive(mover, choice)) && id != mover
    ensures RunFits(Apply(s, Drive(mover, choice)), id)
  {
    hide MoveOf, MayMove, IsFed, AppendedFrom, Of, Tagged, ItemsFrom, InputKept;
    var d := s.drivers[mover];
    var m := MoveOf(s.locked, mover, d, mover in s.cancelled, choice);
    MoveFeedsNobodyElse(s.locked, mover, d, mover in s.cancelled, choice, id);
    BatchOneMore(s.batches, m.batches, FromRun(id));
    OfTagged(s.log, Some(mover), m.sent, id);
    assert AppendedFrom(s.batches, FromRun(id)) + [] == AppendedFrom(s.batches, FromRun(id));
    assert Of(s.log, id) + [] == Of(s.log, id);
  }

  lemma BeginKeepsRun(s: Session, items: seq<TranscriptItem>, toSend: seq<SessionEvent>, id: nat)
    requires OneLive(s) && RunFits(s, id)
    ensures RunFits(Begin(s, items, toSend), id)
  {
    hide AppendedFrom, Of, IsFed;
    assert [] + items == items;
  }

  lemma SpawnKeepsRun(s: Session, k: nat, id: nat)
    requires OneLive(s) && RunFits(s, id) && Enabled(s, Spawn(k))
    ensures RunFits(Apply(s, Spawn(k)), id)
  {
    hide AppendedFrom, Of, InputKept;
  }

  lemma {:induction false} StepKeepsRun(s: Session, step: Step, id: nat)
    requires OneLive(s) && RunFits(s, id) && Enabled(s, step)
    ensures RunFits(Apply(s, step), id)
  {
    hide MoveOf, MayMove, IsFed, AppendedFrom, Of, InputKept, Begin, OneLive;
    match step
    case Drive(mover, choice) =>
      if id == mover {
        DriveKeepsOwnRun(s, id, choice);
      } else {
        DriveKeepsOtherRun(s, mover, choice, id);
      }
    case Announce(k) => OneEntry(s.log, s.starters[k].toSend[0], id);
    case AnnouncePush(caller) => OneEntry(s.log, s.announcers[caller], id);
    case AnnounceAbort(caller) => OneEntry(s.log, StatusChanged(Aborting), id);
    case Spawn(k) => SpawnKeepsRun(s, k, id);
    case Run(items) => BeginKeepsRun(s, items, [InputQueued(Primary, items), StatusChanged(Running)], id);
    case Continue(_) => BeginKeepsRun(s, [], [StatusChanged(Running)], id);
    case _ =>
  }

  // ---------------------------------------------------------------------------
  // Every run

  ghost predicate Invariant(s: Session, base: seq<TranscriptItem>) {
    && OneLive(s)
    && Conserves(s, Steering) && Conserves(s, FollowUp)
    && Records(s, base)
    && (forall id: nat :: FitsLog(s, id))
    && (forall id: nat :: RunFits(s, id))
  }

  lemma NewIsInvariant(base: seq<TranscriptItem>)
    ensures Invariant(New(base), base)
  {
    assert base + [] == base;
    var entry := Entry(None, StatusChanged(Idle));
    forall id: nat
      ensures FitsLog(New(base), id) && RunFits(New(base), id)
    {
      assert [entry][..0] == [];
      assert Of([entry], id) == [];
    }
    assert forall id: nat :: !Live(New(base), id);
  }

  lemma StepKeepsInvariant(s: Session, step: Step, base: seq<TranscriptItem>)
    requires Invariant(s, base) && Enabled(s, step)
    ensures Invariant(Apply(s, step), base)
  {
    hide Apply, Enabled, OneLive, Conserves, Records, FitsLog, RunFits;
    StepKeepsOneLive(s, step);
    StepConserves(s, step, Steering);
    StepConserves(s, step, FollowUp);
    StepRecords(s, step, base);
    forall id: nat
      ensures FitsLog(Apply(s, step), id) && RunFits(Apply(s, step), id)
    {
      StepKeepsFit(s, step, id);
      StepKeepsRun(s, step, id);
    }
  }

  lemma {:induction false} RunKeepsInvariant(s: Session, steps: seq<Step>, base: seq<TranscriptItem>)
    requires Invariant(s, base) && IsRun(s, steps)
    ensures Invariant(After(s, steps), base)
    decreases |steps|
  {
    hide Apply, Enabled, Invariant;
    if steps != [] {
      StepKeepsInvariant(s, steps[0], base);
      RunKeepsInvariant(Apply(s, steps[0]), steps[1..], base);
    }
  }

  /** In every reachable session: Idle exactly without an active turn, at most one submission
      live, submission ids strictly increasing, every pushed item accounted for in order. */
  lemma EveryRunIsSafe(base: seq<TranscriptItem>, steps: seq<Step>, queue: InputQueue, i: nat, j: nat)
    requires IsRun(New(base), steps) && !queue.Primary?
    ensures var s := After(New(base), steps);
            && (s.locked.status.Idle? <==> s.locked.active.None?)
            && (Live(s, i) && Live(s, j) ==> i == j)
            && (i < j < |s.started| ==> s.started[i] < s.started[j])
            && Conserves(s, queue) && Records(s, base) && RunFits(s, i)
  {
    hide IsRun, After, Conserves, Records, FitsLog, RunFits;
    NewIsInvariant(base);
    RunKeepsInvariant(New(base), steps, base);
  }

  /** The conversation only grows. */
  lemma {:induction false} ConversationGrows(s: Session, steps: seq<Step>, base: seq<TranscriptItem>)
    requires Records(s, base) && IsRun(s, steps)
    ensures s.locked.conversation <= After(s, steps).locked.conversation
    decreases |steps|
  {
    hide Apply, Enabled, Records;
    if steps != [] {
      StepRecords(s, steps[0], base);
      ConversationGrows(Apply(s, steps[0]), steps[1..], base);
    }
  }

  /** A submission whose driver is gone has a complete log: collecting its text returns. */
  lemma FinishedSubmissionsReturn(base: seq<TranscriptItem>, steps: seq<Step>, id: nat)
    requires IsRun(New(base), steps)
    ensures var s := After(New(base), steps);
            (id in s.submitted && id !in s.starters && id !in s.drivers)
              ==> Watch(Of(s.log, id)) == Some(Over) && Returns(s.log, id)
  {
    hide IsRun, After, OneLive, Conserves, Records, RunFits, Watch, Of, Returns;
    NewIsInvariant(base);
    RunKeepsInvariant(New(base), steps, base);
    var s := After(New(base), steps);
    assert FitsLog(s, id);
    if Watch(Of(s.log, id)) == Some(Over) {
      OverByIdle(s.log, id);
    }
  }

  // ---------------------------------------------------------------------------
  // Cancellation

  function Starts(events: seq<SessionEvent>): nat {
    if events == [] then 0
    else Starts(events[..|events| - 1]) + if events[|events| - 1].TurnStarted? then 1 else 0
  }

  /** The turns a cancelled driver may still start: the one it has passed its check for. */
  function StartsLeft(pc: Pc): nat {
    match pc
    case Feeding => 1
    case Draining(_, bootstrap) => if bootstrap then 1 else 0
    case Appending(_, _, atTop) => if atTop then 1 else 0
    case CheckingEmpty => 1
    case Starting => 1
    case _ => 0
  }

  function Prospect(s: Session, id: nat): nat {
    Starts(Of(s.log, id)) + if id in s.drivers then StartsLeft(s.drivers[id].pc) else 0
  }

  lemma CancelledMoveStarts(l: Locked, id: nat, d: Driver, choice: Choice)
    requires MayMove(d, choice) && IsFed(d)
    ensures var m := MoveOf(l, id, d, true, choice);
            && |m.sent| <= 1
            && Starts(m.sent) + (if m.driver.Some? then StartsLeft(m.driver.value.pc) else 0) <= StartsLeft(d.pc)
  {
    var m := MoveOf(l, id, d, true, choice);
    if m.sent != [] {
      assert m.sent[..0] == [];
    }
  }

  lemma StartsOneMore(events: seq<SessionEvent>, sent: seq<SessionEvent>)
    requires |sent| <= 1
    ensures Starts(events + sent) == Starts(events) + Starts(sent)
  {
    if sent == [] {
      assert events + sent == events;
    } else {
      assert (events + sent)[..|events|] == events && sent[..0] == [];
    }
  }

  lemma DriveKeepsProspect(s: Session, mover: nat, choice: Choice, id: nat)
    requires id in s.cancelled && RunFits(s, id) && OneLive(s) && Enabled(s, Drive(mover, choice))
    ensures Prospect(Apply(s, Drive(mover, choice)), id) <= Prospect(s, id)
  {
    hide MoveOf, MayMove, Of, Starts, StartsLeft, IsFed, Tagged, InputKept;
    var m := MoveOf(s.locked, mover, s.drivers[mover], mover in s.cancelled, choice);
    if mover == id {
      CancelledMoveStarts(s.locked, id, s.drivers[id], choice);
      OfTagged(s.log, Some(id), m.sent, id);
      StartsOneMore(Of(s.log, id), m.sent);
    } else {
      MoveFeedsNobodyElse(s.locked, mover, s.drivers[mover], mover in s.cancelled, choice, id);
      OfTagged(s.log, Some(mover), m.sent, id);
      assert Of(s.log, id) + [] == Of(s.log, id);
    }
  }

  lemma StepKeepsProspect(s: Session, step: Step, id: nat)
    requires id in s.cancelled && RunFits(s, id) && OneLive(s) && Enabled(s, step)
    ensures id in Apply(s, step).cancelled && Prospect(Apply(s, step), id) <= Prospect(s, id)
  {
    hide MoveOf, MayMove, Of, Starts, IsFed, InputKept, AppendedFrom, Tagged, Begin, OneLive;
    match step
    case Drive(mover, choice) => DriveKeepsProspect(s, mover, choice, id);
    case Announce(k) => OneEntry(s.log, s.starters[k].toSend[0], id);
    case AnnouncePush(caller) => OneEntry(s.log, s.announcers[caller], id);
    case AnnounceAbort(caller) => OneEntry(s.log, StatusChanged(Aborting), id);
    case Run(_) => BeginKeepsProspect(s, step.items, [InputQueued(Primary, step.items), StatusChanged(Running)], id);
    case Continue(_) => BeginKeepsProspect(s, [], [StatusChanged(Running)], id);
    case _ =>
  }

  lemma BeginKeepsProspect(s: Session, items: seq<TranscriptItem>, toSend: seq<SessionEvent>, id: nat)
    requires OneLive(s)
    ensures Prospect(Begin(s, items, toSend), id) == Prospect(s, id) && Begin(s, items, toSend).cancelled == s.cancelled
  {
    hide Of, Starts, StartsLeft;
  }

  /** From the moment its token is cancelled, a submission starts at most one more turn. */
  lemma {:induction false} CancelledStops(s: Session, steps: seq<Step>, id: nat, base: seq<TranscriptItem>)
    requires Invariant(s, base) && id in s.cancelled && IsRun(s, steps)
    ensures Prospect(After(s, steps), id) <= Prospect(s, id)
    ensures Starts(Of(After(s, steps).log, id)) <= Starts(Of(s.log, id)) + 1
    decreases |steps|
  {
    hide Apply, Enabled, OneLive, RunFits, Conserves, Records, FitsLog;
    if steps != [] {
      StepKeepsProspect(s, steps[0], id);
      StepKeepsInvariant(s, steps[0], base);
      CancelledStops(Apply(s, steps[0]), steps[1..], id, base);
    }
  }

  /** The stream brings something and the turn goes on. */
  predicate IsArrival(choice: Choice) {
    choice.ItemArrives? || choice.EventArrives?
  }

  /** How many moves a cancelled driver has left, arrivals on its stream not counted. */
  function Rank(pc: Pc): nat {
    match pc
    case SendingIdle => 1
    case Releasing => 2
    case Ending(_) => 3
    case LoopTop => 4
    case Finished(_) => 4
    case Completing(_, _) => 5
    case Streaming => 6
    case Building => 7
    case Starting => 8
    case CheckingEmpty => 9
    case Appending(_, _, atTop) => if atTop then 9 else 5
    case Draining(queue, bootstrap) => (if bootstrap then 10 else 6) + if queue.Steering? then 1 else 0
    case Feeding => 12
  }

  function RankOf(s: Session, id: nat): nat {
    if id in s.starters then Rank(LoopTop)
    else if id in s.drivers then Rank(s.drivers[id].pc)
    else 0
  }

  /** The moves of a driver in a run, arrivals on its stream not counted. */
  function OwnMoves(steps: seq<Step>, id: nat): nat
    decreases |steps|
  {
    if steps == [] then 0
    else
      var moves := if steps[0].Drive? && steps[0].id == id && !IsArrival(steps[0].choice) then 1 else 0;
      moves + OwnMoves(steps[1..], id)
  }

  lemma CancelledMoveRanks(l: Locked, id: nat, d: Driver, choice: Choice)
    requires MayMove(d, choice)
    ensures var m := MoveOf(l, id, d, true, choice);
            var left := if m.driver.Some? then Rank(m.driver.value.pc) else 0;
            if IsArrival(choice) then left == Rank(d.pc) else left < Rank(d.pc)
  {
  }

  /** Whatever the place, something other than an arrival can happen. */
  lemma DriverCanMove(d: Driver) returns (choice: Choice)
    ensures MayMove(d, choice) && !IsArrival(choice)
  {
    choice := if d.pc.Building? then Built else if d.pc.Streaming? then TurnReturns(false, None) else NoChoice;
  }

  /** A step of a submission itself: of its caller up to the spawn, then of its driver. */
  predicate IsOwnStep(step: Step, id: nat) {
    match step
    case Announce(k) => k == id
    case Spawn(k) => k == id
    case Drive(k, choice) => k == id && !IsArrival(choice)
    case _ => false
  }

  /** A submission that is not gone can take a step of its own. */
  lemma SubmissionCanMove(s: Session, id: nat) returns (step: Step)
    requires id in s.starters || id in s.drivers
    ensures Enabled(s, step) && IsOwnStep(step, id)
  {
    hide MayMove;
    if id in s.starters {
      step := if s.starters[id].toSend != [] then Announce(id) else Spawn(id);
    } else {
      var choice := DriverCanMove(s.drivers[id]);
      step := Drive(id, choice);
    }
  }

  lemma DriveKeepsRank(s: Session, mover: nat, choice: Choice, id: nat)
    requires OneLive(s) && id in s.cancelled && Enabled(s, Drive(mover, choice))
    ensures OwnMoves([Drive(mover, choice)], id) + RankOf(Apply(s, Drive(mover, choice)), id) <= RankOf(s, id)
  {
    hide MoveOf, MayMove, Rank, Tagged, OwnMoves;
    OneStep(mover, choice, id);
    if mover == id {
      CancelledMoveRanks(s.locked, id, s.drivers[id], choice);
    }
  }

  lemma OneStep(mover: nat, choice: Choice, id: nat)
    ensures OwnMoves([Drive(mover, choice)], id) == if mover == id && !IsArrival(choice) then 1 else 0
  {
    assert [Drive(mover, choice)][1..] == [];
  }

  lemma StepKeepsRank(s: Session, step: Step, id: nat)
    requires OneLive(s) && id in s.cancelled && id in s.submitted && Enabled(s, step)
    ensures var moves := if step.Drive? && step.id == id && !IsArrival(step.choice) then 1 else 0;
            moves + RankOf(Apply(s, step), id) <= RankOf(s, id)
    ensures id in Apply(s, step).cancelled && id in Apply(s, step).submitted
  {
    hide MoveOf, MayMove, Rank, Tagged, OwnMoves;
    if step.Drive? {
      DriveKeepsRank(s, step.id, step.choice, id);
      OneStep(step.id, step.choice, id);
    }
  }

  lemma {:induction false} OwnMovesAreRanked(s: Session, steps: seq<Step>, id: nat, base: seq<TranscriptItem>)
    requires Invariant(s, base) && id in s.cancelled && id in s.submitted && IsRun(s, steps)
    ensures OwnMoves(steps, id) + RankOf(After(s, steps), id) <= RankOf(s, id) <= 12
    decreases |steps|
  {
    hide Apply, Enabled, OneLive, RunFits, Conserves, Records, FitsLog;
    if steps != [] {
      StepKeepsRank(s, steps[0], id);
      StepKeepsInvariant(s, steps[0], base);
      OwnMovesAreRanked(Apply(s, steps[0]), steps[1..], id, base);
    }
  }

  /** A cancelled submission makes at most twelve moves of its driver that are not arrivals on its
      stream, over every interleaving; until it is gone it can take a step of its own, and once the
      twelve are made it is gone. */
  lemma CancelledEnds(s: Session, steps: seq<Step>, id: nat, base: seq<TranscriptItem>) returns (next: Step)
    requires Invariant(s, base) && id in s.cancelled && id in s.submitted && IsRun(s, steps)
    ensures OwnMoves(steps, id) <= 12
    ensures var t := After(s, steps);
            if id in t.starters || id in t.drivers then
              OwnMoves(steps, id) < 12 && Enabled(t, next) && IsOwnStep(next, id)
            else RankOf(t, id) == 0
  {
    hide IsRun, After, Invariant, Enabled, Rank, IsOwnStep;
    OwnMovesAreRanked(s, steps, id, base);
    var t := After(s, steps);
    next := RequestAbort(0);
    if id in t.starters || id in t.drivers {
      next := SubmissionCanMove(t, id);
      RankIsPositive(t, id);
    }
  }

  lemma RankIsPositive(s: Session, id: nat)
    requires id in s.starters || id in s.drivers
    ensures 0 < RankOf(s, id)
  {
  }

  // ---------------------------------------------------------------------------
  // Continuing without input

  /** What an undisturbed `continue_turn` puts before its first turn: the steering inputs, or, if
      they hold nothing, the follow-up inputs. */
  function Bootstrap(l: Locked): seq<TranscriptItem> {
    if Flatten(l.steering) != [] then Flatten(l.steering) else Flatten(l.followUp)
  }

  /** The steps of a driver that is left alone until it starts a turn or ends. */
  function Alone(l: Locked, id: nat, d: Driver, n: nat): (Locked, Driver)
    decreases n
  {
    if n == 0 || !MayMove(d, NoChoice) || d.pc.Starting? || d.pc.Ending? then (l, d)
    else
      var m := MoveOf(l, id, d, false, NoChoice);
      if m.driver.None? then (l, d) else Alone(m.locked, id, m.driver.value, n - 1)
  }

  /** What an accepted `continue_turn` means: left alone it starts a turn with the queued inputs
      behind the conversation, or, without any, with a conversation that does not end with an
      assistant message; it fails with an empty conversation exactly if there was none and the
      queued inputs hold no items. */
  lemma AcceptedContinueFeeds(l: Locked, id: nat)
    requires ContinueRefusal(l).None?
    ensures var (after, d) := Alone(Activate(l, id), id, Driver([], LoopTop), 6);
            && after.conversation == l.conversation + Bootstrap(l)
            && (d.pc == Starting <==> after.conversation != [])
            && (after.conversation == [] ==> d.pc.Ending? && d.pc.event.TurnFailed?)
            && (l.steering == [] && l.followUp == [] ==>
                  after.conversation != [] && !IsAssistant(after.conversation[|after.conversation| - 1]))
  {
    hide Flatten;
    var a := Activate(l, id);
    assert l.conversation + [] == l.conversation;
    assert Flatten<TranscriptItem>([]) == [] by { NothingQueued(); }
    AloneStep(a, id, Driver([], LoopTop), 6);
    AloneStep(a, id, Driver([], Feeding), 5);
    AloneStep(a, id, Driver([], Draining(Steering, true)), 4);
    if Flatten(l.steering) != [] {
      var s := WithQueue(a, Steering, []);
      AloneStep(s, id, Driver([], Appending(Steering, Flatten(l.steering), true)), 3);
      AloneDone(Extended(s, Flatten(l.steering)), id, Driver([], Starting), 2);
    } else {
      FollowUpFeeds(WithQueue(a, Steering, []), id);
    }
  }

  /** Left alone at the drain of the follow-up inputs, a driver appends them, or goes on if the
      conversation is not empty. */
  lemma FollowUpFeeds(l: Locked, id: nat)
    ensures var (after, d) := Alone(l, id, Driver([], Draining(FollowUp, true)), 3);
            && after.conversation == l.conversation + Flatten(l.followUp)
            && (if after.conversation != [] then d.pc == Starting else d.pc.Ending? && d.pc.event.TurnFailed?)
  {
    hide Flatten;
    AloneStep(l, id, Driver([], Draining(FollowUp, true)), 3);
    var f := WithQueue(l, FollowUp, []);
    if Flatten(l.followUp) != [] {
      AloneStep(f, id, Driver([], Appending(FollowUp, Flatten(l.followUp), true)), 2);
      AloneDone(Extended(f, Flatten(l.followUp)), id, Driver([], Starting), 1);
    } else {
      AloneStep(f, id, Driver([], CheckingEmpty), 2);
      AloneDone(f, id, Driver([], Starting), 1);
      assert l.conversation + [] == l.conversation;
    }
  }

  lemma NothingQueued()
    ensures Flatten<TranscriptItem>([]) == []
  {
  }

  lemma AloneStep(l: Locked, id: nat, d: Driver, n: nat)
    requires 0 < n && MayMove(d, NoChoice) && !d.pc.Starting? && !d.pc.Ending?
    ensures var m := MoveOf(l, id, d, false, NoChoice);
            Alone(l, id, d, n) == if m.driver.None? then (l, d) else Alone(m.locked, id, m.driver.value, n - 1)
  {
  }

  lemma AloneDone(l: Locked, id: nat, d: Driver, n: nat)
    requires d.pc.Starting? || d.pc.Ending?
    ensures Alone(l, id, d, n) == (l, d)
  {
  }

  /** An input pushed after the last drain stays queued while the session goes idle. */
  lemma LateInputStays(s: Session, id: nat, caller: nat, queue: InputQueue, input: Input)
    requires id in s.drivers && s.drivers[id].pc.Releasing? && caller !in s.announcers && !queue.Primary?
    ensures var steps := [Push(caller, queue, input), Drive(id, NoChoice), Drive(id, NoChoice)];
            && IsRun(s, steps)
            && var t := After(s, steps);
               && t.locked.status.Idle? && t.locked.active.None? && id !in t.drivers
               && QueueOf(t.locked, queue) == QueueOf(s.locked, queue) + [input]
  {
    var push, drive := Push(caller, queue, input), Drive(id, NoChoice);
    var a := Apply(s, push);
    var b := Apply(a, drive);
    var c := Apply(b, drive);
    assert Enabled(s, push) && Enabled(a, drive) && Enabled(b, drive);
    assert [push, drive, drive][1..] == [drive, drive] && [drive, drive][1..] == [drive] && [drive][1..] == [];
    assert IsRun(c, []) && IsRun(b, [drive]) && IsRun(a, [drive, drive]);
    assert After(c, []) == c;
    assert After(b, [drive]) == After(c, []);
    assert After(a, [drive, drive]) == After(b, [drive]);
  }
}
