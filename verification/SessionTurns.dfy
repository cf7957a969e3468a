/** The conversation of a session, turn by turn: what a turn appends stands together, and where
    every turn is a chat turn it is known exactly when the next request of the session is adjacent
    (src/core/src/session.rs:339-480, src/core/src/processor.rs:81-119). */
module SessionTurns {
  import opened Basics
  import opened Transcript
  import opened SessionState
  import opened Session
  import opened ChatRequest
  import EndToEnd
  import ToolAdjacency

  /** A stretch of the conversation: inputs, or all that one turn has appended. */
  datatype Group = InputGroup(items: seq<TranscriptItem>) | TurnGroup(id: nat, items: seq<TranscriptItem>)

  predicate EndsInTurn(groups: seq<Group>, id: nat) {
    groups != [] && groups[|groups| - 1].TurnGroup? && groups[|groups| - 1].id == id
  }

  function AddBatch(groups: seq<Group>, b: Batch): seq<Group> {
    match b.source
    case FromRun(_) => groups + [InputGroup(b.items)]
    case FromQueue(_) => groups + [InputGroup(b.items)]
    case TurnBegins(id) => groups + [TurnGroup(id, b.items)]
    case FromTurn(id) =>
      if EndsInTurn(groups, id) then
        var last := groups[|groups| - 1];
        groups[..|groups| - 1] + [TurnGroup(id, last.items + b.items)]
      else groups + [InputGroup(b.items)]
  }

  /** The stretches of a conversation, from the batches appended to it. */
  function Groups(batches: seq<Batch>): seq<Group> {
    if batches == [] then [] else AddBatch(Groups(batches[..|batches| - 1]), batches[|batches| - 1])
  }

  function GroupItems(groups: seq<Group>): seq<TranscriptItem> {
    if groups == [] then [] else GroupItems(groups[..|groups| - 1]) + groups[|groups| - 1].items
  }

  /** Every item of a turn comes directly behind its start or another item of that turn. */
  predicate StandTogether(batches: seq<Batch>) {
    batches != [] ==>
      var n := |batches| - 1;
      && StandTogether(batches[..n])
      && (batches[n].source.FromTurn? ==> EndsInTurn(Groups(batches[..n]), batches[n].source.id))
  }

  lemma OneMoreGroup(groups: seq<Group>, g: Group)
    ensures GroupItems(groups + [g]) == GroupItems(groups) + g.items
  {
    assert (groups + [g])[..|groups|] == groups;
  }

  lemma AddedBatch(groups: seq<Group>, b: Batch)
    ensures GroupItems(AddBatch(groups, b)) == GroupItems(groups) + b.items
  {
    OneMoreGroup(groups, InputGroup(b.items));
    if b.source.TurnBegins? {
      OneMoreGroup(groups, TurnGroup(b.source.id, b.items));
    }
    if b.source.FromTurn? && EndsInTurn(groups, b.source.id) {
      var n := |groups| - 1;
      OneMoreGroup(groups[..n], TurnGroup(b.source.id, groups[n].items + b.items));
      Associative(GroupItems(groups[..n]), groups[n].items, b.items);
    }
  }

  /** The stretches make up all that was appended. */
  lemma {:induction false} GroupsAreAll(batches: seq<Batch>)
    ensures GroupItems(Groups(batches)) == AllAppended(batches)
  {
    hide AddBatch;
    if batches != [] {
      var n := |batches| - 1;
      GroupsAreAll(batches[..n]);
      AddedBatch(Groups(batches[..n]), batches[n]);
    }
  }

  // ---------------------------------------------------------------------------
  // Every run

  predicate IsReading(pc: Pc) {
    pc.Building? || pc.Streaming?
  }

  /** The last stretch is that of a turn that has just begun. */
  predicate EndsInNewTurn(groups: seq<Group>) {
    groups != [] && groups[|groups| - 1].items == []
  }

  /** A driver inside a turn stands at the end of the conversation, and at the beginning of its turn
      when it builds the request. */
  ghost predicate Together(s: Session) {
    && StandTogether(s.batches)
    && (forall id: nat :: id in s.drivers && IsReading(s.drivers[id].pc) ==> EndsInTurn(Groups(s.batches), id))
    && (forall id: nat :: id in s.drivers && s.drivers[id].pc.Building? ==> EndsInNewTurn(Groups(s.batches)))
  }

  lemma BatchesOneMore(batches: seq<Batch>, b: Batch)
    ensures Groups(batches + [b]) == AddBatch(Groups(batches), b)
    ensures StandTogether(batches + [b])
       <==> StandTogether(batches) && (b.source.FromTurn? ==> EndsInTurn(Groups(batches), b.source.id))
  {
    hide AddBatch;
    assert (batches + [b])[..|batches|] == batches;
  }

  /** What a move of a driver appends, and whether it is inside a turn then. */
  lemma MoveBatches(l: Locked, id: nat, d: Driver, cancelled: bool, choice: Choice)
    requires MayMove(d, choice)
    ensures var m := MoveOf(l, id, d, cancelled, choice);
            && |m.batches| <= 1
            && (m.batches != [] && m.batches[0].source.FromTurn? ==> m.batches[0].source.id == id && IsReading(d.pc))
            && (d.pc.SendingIdle? ==> m.batches == [])
            && (m.driver.Some? && IsReading(m.driver.value.pc) ==>
                  if m.batches == [] then IsReading(d.pc)
                  else m.batches[0].source == TurnBegins(id) || m.batches[0].source == FromTurn(id))
            && (m.driver.Some? && m.driver.value.pc.Building? ==> m.batches == [Batch(TurnBegins(id), [])])
  {
  }

  lemma DriveKeepsTogether(s: Session, mover: nat, choice: Choice)
    requires OneLive(s) && Together(s) && Enabled(s, Drive(mover, choice))
    ensures Together(Apply(s, Drive(mover, choice)))
  {
    hide MoveOf, MayMove, StandTogether, Groups, Tagged;
    var d := s.drivers[mover];
    var m := MoveOf(s.locked, mover, d, mover in s.cancelled, choice);
    MoveBatches(s.locked, mover, d, mover in s.cancelled, choice);
    var t := Apply(s, Drive(mover, choice));
    if m.batches == [] {
      assert s.batches + m.batches == s.batches;
    } else {
      assert m.batches == [m.batches[0]];
      BatchesOneMore(s.batches, m.batches[0]);
      assert Live(s, mover);
    }
    forall k: nat | k in t.drivers && IsReading(t.drivers[k].pc)
      ensures EndsInTurn(Groups(t.batches), k)
    {
      if k != mover {
        assert Live(s, k);
      }
    }
    forall k: nat | k in t.drivers && t.drivers[k].pc.Building?
      ensures EndsInNewTurn(Groups(t.batches))
    {
      if k != mover {
        assert Live(s, k);
      }
    }
  }

  lemma StepKeepsTogether(s: Session, step: Step)
    requires OneLive(s) && Together(s) && Enabled(s, step)
    ensures Together(Apply(s, step))
  {
    hide MoveOf, MayMove, StandTogether, Groups;
    if step.Drive? {
      DriveKeepsTogether(s, step.id, step.choice);
    }
  }

  lemma {:induction false} RunKeepsTogether(s: Session, steps: seq<Step>, base: seq<TranscriptItem>)
    requires Invariant(s, base) && Together(s) && IsRun(s, steps)
    ensures Together(After(s, steps)) && Records(After(s, steps), base)
    decreases |steps|
  {
    hide Apply, Enabled, OneLive, Together, Conserves, FitsLog, RunFits;
    if steps != [] {
      StepKeepsTogether(s, steps[0]);
      StepKeepsInvariant(s, steps[0], base);
      RunKeepsTogether(Apply(s, steps[0]), steps[1..], base);
    }
  }

  /** In every reachable session the items of a turn stand together, and the conversation is the
      one it began with and the stretches appended since. */
  lemma TurnsStandTogether(base: seq<TranscriptItem>, steps: seq<Step>)
    requires IsRun(New(base), steps)
    ensures var s := After(New(base), steps);
            StandTogether(s.batches) && s.locked.conversation == base + GroupItems(Groups(s.batches))
  {
    hide IsRun, After, Groups, GroupItems, StandTogether;
    NewIsInvariant(base);
    NothingApart(base);
    RunKeepsTogether(New(base), steps, base);
    GroupsAreAll(After(New(base), steps).batches);
  }

  lemma NothingApart(base: seq<TranscriptItem>)
    ensures Together(New(base))
  {
  }

  // ---------------------------------------------------------------------------
  // The next request of a session

  /** The stretches of the conversation are what these stages add. */
  predicate AreStages(groups: seq<Group>, stages: seq<EndToEnd.Stage>)
    requires EndToEnd.AllOver(stages)
  {
    && |groups| == |stages|
    && forall i :: 0 <= i < |groups| ==>
         groups[i].items == EndToEnd.StageAdds(stages[i]) && (groups[i].TurnGroup? <==> stages[i].ModelTurn?)
  }

  lemma {:induction false} StagesMakeUp(base: seq<TranscriptItem>, groups: seq<Group>, stages: seq<EndToEnd.Stage>)
    requires EndToEnd.AllOver(stages) && AreStages(groups, stages)
    ensures base + GroupItems(groups) == EndToEnd.Conversation(base, stages)
    decreases |stages|
  {
    hide EndToEnd.StageAdds, EndToEnd.StageIsOver;
    if stages == [] {
      assert base + [] == base;
    } else {
      var n := |stages| - 1;
      StagesMakeUp(base, groups[..n], stages[..n]);
      Associative(base, GroupItems(groups[..n]), groups[n].items);
    }
  }

  /** In every reachable session, a turn that builds its request has just begun. */
  lemma RequestIsBuiltFirst(base: seq<TranscriptItem>, steps: seq<Step>, id: nat)
    requires IsRun(New(base), steps)
    requires var s := After(New(base), steps);
             id in s.drivers && s.drivers[id].pc.Building?
    ensures var s := After(New(base), steps);
            var groups := Groups(s.batches);
            && EndsInTurn(groups, id) && EndsInNewTurn(groups)
            && s.locked.conversation == base + GroupItems(groups[..|groups| - 1])
  {
    hide IsRun, After, Groups, GroupItems, StandTogether;
    NewIsInvariant(base);
    NothingApart(base);
    RunKeepsTogether(New(base), steps, base);
    TurnsStandTogether(base, steps);
    var groups := Groups(After(New(base), steps).batches);
    OneMoreGroup(groups[..|groups| - 1], groups[|groups| - 1]);
    assert groups[..|groups| - 1] + [groups[|groups| - 1]] == groups;
    assert GroupItems(groups[..|groups| - 1]) + [] == GroupItems(groups[..|groups| - 1]);
  }

  /** Over every interleaving of callers and drivers, behind every transcript of inputs and turns:
      when a session whose inputs are user messages and whose turns so far are chat turns builds
      its next request, that has every message with calls followed immediately by exactly its tool
      messages, if and only if no turn keeps an assistant text between two of its calls and no turn
      failed behind one of its calls. */
  lemma SessionRequestIsAdjacentIff(base: seq<ToolAdjacency.Segment>, steps: seq<Step>, id: nat,
                                    stages: seq<EndToEnd.Stage>, instructions: string, anchors: map<nat, string>,
                                    handling: DeveloperRoleHandling)
    requires ToolAdjacency.AllWellFormed(base) && IsRun(New(ToolAdjacency.ItemsOf(base)), steps)
    requires var s := After(New(ToolAdjacency.ItemsOf(base)), steps);
             && id in s.drivers && s.drivers[id].pc.Building?
             && EndToEnd.AllOver(stages)
             && var groups := Groups(s.batches);
                groups != [] && AreStages(groups[..|groups| - 1], stages)
    ensures var items := After(New(ToolAdjacency.ItemsOf(base)), steps).locked.conversation;
            var messages := AddItems(Builder([SystemMessage(instructions)], None), items, |items|, anchors,
                                     handling).messages;
            ToolAdjacency.Adjacent(messages)
            <==> && ToolAdjacency.NoneSplits(base) && ToolAdjacency.AllAnswered(base)
                 && EndToEnd.NoTextBetweenCalls(ToolAdjacency.ItemsOf(base), stages)
                 && EndToEnd.NoneLeavesCalls(stages)
  {
    hide IsRun, After, Groups, GroupItems, StandTogether, AddItems, ToolAdjacency.Adjacent, EndToEnd.AllOver,
      EndToEnd.Conversation, EndToEnd.NoTextBetweenCalls, EndToEnd.NoneLeavesCalls, ToolAdjacency.NoneSplits,
      ToolAdjacency.AllAnswered, ToolAdjacency.AllWellFormed, ToolAdjacency.ItemsOf;
    RequestIsBuiltFirst(ToolAdjacency.ItemsOf(base), steps, id);
    var groups := Groups(After(New(ToolAdjacency.ItemsOf(base)), steps).batches);
    StagesMakeUp(ToolAdjacency.ItemsOf(base), groups[..|groups| - 1], stages);
    EndToEnd.NextRequestIsAdjacentIff(instructions, base, stages, anchors, handling);
  }
}
