/** The mutex-guarded state of a session, and what is done to it while the lock is held
    (src/core/src/session.rs:107-174, 300-312, 470-473, 554-603).  Every method is one
    lock-held region. */
module SessionState {
  import opened Basics
  import opened Transcript
  import opened SessionLog

  type Input = seq<TranscriptItem>

  datatype Locked = Locked(
    conversation: seq<TranscriptItem>, steering: seq<Input>, followUp: seq<Input>,
    status: Status, active: Option<nat>)

  function QueueOf(l: Locked, queue: InputQueue): seq<Input> {
    match queue
    case Primary => []
    case Steering => l.steering
    case FollowUp => l.followUp
  }

  function WithQueue(l: Locked, queue: InputQueue, inputs: seq<Input>): Locked {
    match queue
    case Primary => l
    case Steering => l.(steering := inputs)
    case FollowUp => l.(followUp := inputs)
  }

  /** `spawn_turn_loop`: a session with an active turn is busy. */
  function Activate(l: Locked, id: nat): Locked {
    if l.active.Some? then l else l.(status := Running, active := Some(id))
  }

  function Pushed(l: Locked, queue: InputQueue, input: Input): Locked {
    WithQueue(l, queue, QueueOf(l, queue) + [input])
  }

  /** Draining takes everything; the items of all inputs are joined. */
  function Drained(l: Locked, queue: InputQueue): (Locked, seq<TranscriptItem>) {
    (WithQueue(l, queue, []), Flatten(QueueOf(l, queue)))
  }

  function Extended(l: Locked, items: seq<TranscriptItem>): Locked {
    l.(conversation := l.conversation + items)
  }

  function AbortRequested(l: Locked): Locked {
    if l.active.Some? then l.(status := Aborting) else l
  }

  function Released(l: Locked): Locked {
    l.(status := Idle, active := None)
  }

  datatype ContinueError = SessionBusy | EmptyConversation | InvalidContinuation

  predicate HasBootstrapInput(l: Locked) {
    l.steering != [] || l.followUp != []
  }

  predicate CanContinueFromHistory(history: seq<TranscriptItem>) {
    history == [] || !IsAssistant(history[|history| - 1])
  }

  /** Why a session may not continue without new input, if it may not. */
  function ContinueRefusal(l: Locked): Option<ContinueError> {
    if l.active.Some? then Some(SessionBusy)
    else if l.conversation == [] && !HasBootstrapInput(l) then Some(EmptyConversation)
    else if !HasBootstrapInput(l) && !CanContinueFromHistory(l.conversation) then Some(InvalidContinuation)
    else None
  }

  class State {
    var conversation: seq<TranscriptItem>
    var steeringQueue: seq<Input>
    var followUpQueue: seq<Input>
    var status: Status
    var activeTurn: Option<nat>

    function Now(): Locked
      reads this
    {
      Locked(conversation, steeringQueue, followUpQueue, status, activeTurn)
    }

    constructor (conversation: seq<TranscriptItem>)
      ensures Now() == Locked(conversation, [], [], Idle, None)
    {
      this.conversation := conversation;
      steeringQueue, followUpQueue, status, activeTurn := [], [], Idle, None;
    }

    method TryActivate(id: nat) returns (started: bool)
      modifies this`status, this`activeTurn
      ensures started <==> old(activeTurn).None?
      ensures Now() == Activate(old(Now()), id)
    {
      if activeTurn.Some? {
        return false;
      }
      status, activeTurn := Running, Some(id);
      started := true;
    }

    method PushInput(queue: InputQueue, input: Input)
      requires !queue.Primary?
      modifies this`steeringQueue, this`followUpQueue
      ensures Now() == Pushed(old(Now()), queue, input)
    {
      if queue.Steering? {
        steeringQueue := steeringQueue + [input];
      } else {
        followUpQueue := followUpQueue + [input];
      }
    }

    method RequestAbort() returns (cancels: Option<nat>)
      modifies this`status
      ensures cancels == old(activeTurn)
      ensures Now() == AbortRequested(old(Now()))
    {
      if activeTurn.Some? {
        status := Aborting;
      }
      cancels := activeTurn;
    }

    method AppendItems(items: seq<TranscriptItem>)
      modifies this`conversation
      ensures Now() == Extended(old(Now()), items)
    {
      conversation := conversation + items;
    }

    method TakeQueue(queue: InputQueue) returns (items: seq<TranscriptItem>)
      modifies this`steeringQueue, this`followUpQueue
      ensures (Now(), items) == Drained(old(Now()), queue)
    {
      items := [];
      if queue.Primary? {
        return;
      }
      while (if queue.Steering? then steeringQueue else followUpQueue) != []
        invariant Now() == WithQueue(old(Now()), queue, QueueOf(Now(), queue))
        invariant items + Flatten(QueueOf(Now(), queue)) == Flatten(QueueOf(old(Now()), queue))
        decreases |QueueOf(Now(), queue)|
      {
        var source := if queue.Steering? then steeringQueue else followUpQueue;
        Associative(items, source[0], Flatten(source[1..]));
        items := items + source[0];
        if queue.Steering? {
          steeringQueue := source[1..];
        } else {
          followUpQueue := source[1..];
        }
      }
      assert items + Flatten([]) == items;
    }

    method Release()
      modifies this`status, this`activeTurn
      ensures Now() == Released(old(Now()))
    {
      status := Idle;
      activeTurn := None;
    }

    method CheckContinue() returns (refusal: Option<ContinueError>)
      ensures refusal == ContinueRefusal(Now())
    {
      if activeTurn.Some? {
        return Some(SessionBusy);
      }
      var bootstrap := steeringQueue != [] || followUpQueue != [];
      if conversation == [] && !bootstrap {
        return Some(EmptyConversation);
      }
      if !bootstrap && !CanContinueFromHistory(conversation) {
        return Some(InvalidContinuation);
      }
      refusal := None;
    }
  }
}
