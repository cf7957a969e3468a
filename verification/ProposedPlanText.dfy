/** The plan a text proposes: the text of its last plan block
    (src/llm/src/api/proposed_plan_parser.rs:123-140). */
module ProposedPlanText {
  import opened Basics
  import opened PlanText
  import opened PlanParser

  /** The text of the last block begun in `atoms`; `plan` is the block begun before them. */
  function LastPlan(plan: Option<string>, atoms: seq<Atom>): Option<string>
    decreases atoms
  {
    if atoms == [] then plan
    else match atoms[0]
      case StartAtom => LastPlan(Some([]), atoms[1..])
      case EndAtom => LastPlan(plan, atoms[1..])
      case TextAtom(inPlan, ch) =>
        LastPlan(if inPlan && plan.Some? then Some(plan.value + [ch]) else plan, atoms[1..])
  }

  function ProposedPlan(text: string): Option<string> {
    LastPlan(None, LineAtoms(false, text))
  }

  /** The text inside plan blocks. */
  function PlanChars(atoms: seq<Atom>): string {
    if atoms == [] then [] else AtomPlanChars(atoms[0]) + PlanChars(atoms[1..])
  }

  function AtomPlanChars(atom: Atom): string {
    if atom.TextAtom? && atom.inPlan then [atom.ch] else []
  }

  lemma {:induction false} LastPlanAppend(plan: Option<string>, a: seq<Atom>, b: seq<Atom>)
    ensures LastPlan(plan, a + b) == LastPlan(LastPlan(plan, a), b)
    decreases a
  {
    if a == [] {
      assert a + b == b;
    } else {
      assert (a + b)[0] == a[0] && (a + b)[1..] == a[1..] + b;
      match a[0]
      case StartAtom => LastPlanAppend(Some([]), a[1..], b);
      case EndAtom => LastPlanAppend(plan, a[1..], b);
      case TextAtom(inPlan, ch) =>
        LastPlanAppend(if inPlan && plan.Some? then Some(plan.value + [ch]) else plan, a[1..], b);
    }
  }

  /** After the last opening tag, the plan grows by the text inside its block. */
  lemma {:induction false} LastPlanGrows(plan: Option<string>, atoms: seq<Atom>)
    requires StartAtom !in atoms
    ensures LastPlan(plan, atoms) == if plan.Some? then Some(plan.value + PlanChars(atoms)) else None
    decreases atoms
  {
    if atoms == [] {
      assert plan.Some? ==> plan.value + [] == plan.value;
    } else {
      match atoms[0]
      case EndAtom => LastPlanGrows(plan, atoms[1..]);
      case TextAtom(inPlan, ch) =>
        if inPlan && plan.Some? {
          LastPlanGrows(Some(plan.value + [ch]), atoms[1..]);
          assert plan.value + [ch] + PlanChars(atoms[1..]) == plan.value + ([ch] + PlanChars(atoms[1..]));
        } else {
          LastPlanGrows(plan, atoms[1..]);
          assert [] + PlanChars(atoms[1..]) == PlanChars(atoms[1..]);
        }
    }
  }

  lemma {:induction false} PlanCharsAppend(a: seq<Atom>, b: seq<Atom>)
    ensures PlanChars(a + b) == PlanChars(a) + PlanChars(b)
  {
    if a == [] {
      assert a + b == b;
    } else {
      assert (a + b)[0] == a[0] && (a + b)[1..] == a[1..] + b;
      PlanCharsAppend(a[1..], b);
      var head := AtomPlanChars(a[0]);
      assert head + (PlanChars(a[1..]) + PlanChars(b)) == head + PlanChars(a[1..]) + PlanChars(b);
    }
  }

  /** With several blocks, the text proposed is that of the last one. */
  lemma LastBlockWins(before: seq<Atom>, block: seq<Atom>)
    requires StartAtom !in block
    ensures LastPlan(None, before + [StartAtom] + block) == Some(PlanChars(block))
  {
    LastPlanAppend(None, before + [StartAtom], block);
    LastPlanAppend(None, before, [StartAtom]);
    var start := [StartAtom];
    assert start[1..] == [];
    assert LastPlan(LastPlan(None, before), start) == Some([]);
    LastPlanGrows(Some([]), block);
    assert [] + PlanChars(block) == PlanChars(block);
  }

  lemma {:induction false} NoPlanOutsideBlocks(atoms: seq<Atom>, rest: seq<Atom>)
    requires StartAtom !in atoms && Balanced(false, atoms + rest)
    ensures PlanChars(atoms) == []
  {
    if atoms != [] {
      assert (atoms + rest)[0] == atoms[0] && (atoms + rest)[1..] == atoms[1..] + rest;
      NoPlanOutsideBlocks(atoms[1..], rest);
    }
  }

  /** With one block, everything reported inside plan blocks is the plan. */
  lemma SingleBlockIsWholePlan(before: seq<Atom>, block: seq<Atom>)
    requires StartAtom !in before && StartAtom !in block
    requires Balanced(false, before + [StartAtom] + block)
    ensures LastPlan(None, before + [StartAtom] + block) == Some(PlanChars(before + [StartAtom] + block))
  {
    LastBlockWins(before, block);
    assert before + [StartAtom] + block == before + ([StartAtom] + block);
    NoPlanOutsideBlocks(before, [StartAtom] + block);
    PlanCharsAppend(before + [StartAtom], block);
    PlanCharsAppend(before, [StartAtom]);
    assert PlanChars([StartAtom]) == [];
    assert [] + [] + PlanChars(block) == PlanChars(block);
  }

  function DeltaTexts(segments: seq<Segment>): seq<string> {
    if segments == [] then []
    else
      var n := |segments| - 1;
      DeltaTexts(segments[..n]) + if segments[n].PlanDelta? then [segments[n].text] else []
  }

  lemma TextAtomsFirst(inPlan: bool, text: string)
    requires text != []
    ensures TextAtoms(inPlan, text) == [TextAtom(inPlan, text[0])] + TextAtoms(inPlan, text[1..])
  {
  }

  lemma {:induction false} PlanCharsOfText(inPlan: bool, text: string)
    ensures PlanChars(TextAtoms(inPlan, text)) == if inPlan then text else []
  {
    if text != [] {
      PlanCharsOfText(inPlan, text[1..]);
      TextAtomsFirst(inPlan, text);
      PlanCharsAppend([TextAtom(inPlan, text[0])], TextAtoms(inPlan, text[1..]));
      assert [TextAtom(inPlan, text[0])][1..] == [];
    }
  }

  /** The plan deltas among some segments carry exactly the text inside plan blocks. */
  lemma {:induction false} DeltaTextsArePlanChars(segments: seq<Segment>)
    ensures Flatten(DeltaTexts(segments)) == PlanChars(AtomsOf(segments))
  {
    hide TextAtoms;
    if segments != [] {
      var n := |segments| - 1;
      DeltaTextsArePlanChars(segments[..n]);
      PlanCharsAppend(AtomsOf(segments[..n]), SegmentAtoms(segments[n]));
      match segments[n]
      case Normal(text) => PlanCharsOfText(false, text); FlattenNothing(DeltaTexts(segments[..n]));
      case PlanDelta(text) => PlanCharsOfText(true, text); FlattenPush(DeltaTexts(segments[..n]), text);
      case PlanStart => FlattenNothing(DeltaTexts(segments[..n]));
      case PlanEnd => FlattenNothing(DeltaTexts(segments[..n]));
    }
  }

  lemma FlattenNothing(parts: seq<string>)
    ensures parts + [] == parts
  {
  }

  lemma {:induction false} AtomsOfAppend(a: seq<Segment>, b: seq<Segment>)
    ensures AtomsOf(a + b) == AtomsOf(a) + AtomsOf(b)
  {
    hide SegmentAtoms;
    if b == [] {
      assert a + b == a;
    } else {
      var n := |b| - 1;
      assert (a + b)[..|a| + n] == a + b[..n];
      AtomsOfAppend(a, b[..n]);
    }
  }

  /** The segments of one `parse` call per chunk. */
  function ChunkSegments(s: State, chunks: seq<string>): seq<Segment>
    decreases chunks
  {
    if chunks == [] then []
    else
      var (t, atoms) := Run(s, chunks[0]);
      Coalesce(atoms) + ChunkSegments(t, chunks[1..])
  }

  lemma {:induction false} ChunkSegmentsReport(s: State, chunks: seq<string>)
    ensures AtomsOf(ChunkSegments(s, chunks)) == RunChunks(s, chunks).1
    decreases chunks
  {
    hide Run, Coalesce;
    if chunks == [] {
      NoAtoms();
    } else {
      var (t, atoms) := Run(s, chunks[0]);
      ChunkSegmentsReport(t, chunks[1..]);
      CoalesceKeepsAtoms(atoms);
      AtomsOfAppend(Coalesce(atoms), ChunkSegments(t, chunks[1..]));
    }
  }

  /** The segments of all `parse` calls and of `finish`, coalesced, are the line-by-line meaning of
      the whole text, coalesced. */
  lemma {:induction false} SegmentsMeanLines(chunks: seq<string>)
    ensures var segments := ChunkSegments(INITIAL, chunks) + Coalesce(FinishAtoms(RunChunks(INITIAL, chunks).0));
            && AtomsOf(segments) == LineAtoms(false, Flatten(chunks))
            && Coalesce(AtomsOf(segments)) == Coalesce(LineAtoms(false, Flatten(chunks)))
  {
    hide Coalesce, RunChunks, FinishAtoms, LineAtoms;
    var s := RunChunks(INITIAL, chunks).0;
    ChunkSegmentsReport(INITIAL, chunks);
    CoalesceKeepsAtoms(FinishAtoms(s));
    AtomsOfAppend(ChunkSegments(INITIAL, chunks), Coalesce(FinishAtoms(s)));
    ChunkingIsIrrelevant(chunks);
  }

  lemma {:induction false} LastPlanText(plan: Option<string>, inPlan: bool, text: string)
    ensures LastPlan(plan, TextAtoms(inPlan, text))
         == if inPlan && plan.Some? then Some(plan.value + text) else plan
  {
    LastPlanGrows(plan, TextAtoms(inPlan, text));
    PlanCharsOfText(inPlan, text);
    assert plan.Some? ==> plan.value + [] == plan.value;
  }

  method ExtractProposedPlanText(text: string) returns (plan: Option<string>)
    ensures plan == ProposedPlan(text)
  {
    hide LastPlan, AtomsOf, TextAtoms, Run, LineAtoms, FinishAtoms, Coalesce;
    var parser := new ProposedPlanParser();
    var planText: string := [];
    var sawPlanBlock := false;
    var parsed := parser.Parse(text);
    RunIsLineAtoms(text);
    CoalesceKeepsAtoms(Run(INITIAL, text).1);
    var closing := parser.Finish();
    CoalesceKeepsAtoms(FinishAtoms(Run(INITIAL, text).0));
    var segments := parsed + closing;
    AtomsOfAppend(parsed, closing);
    NoAtoms();
    LastPlanNothing(None);
    assert segments[..0] == [];
    for i := 0 to |segments|
      invariant LastPlan(None, AtomsOf(segments[..i])) == if sawPlanBlock then Some(planText) else None
    {
      LastPlanStep(segments, i);
      match segments[i] {
        case PlanStart =>
          sawPlanBlock := true;
          planText := [];
        case PlanDelta(delta) =>
          planText := planText + delta;
        case PlanEnd =>
        case Normal(_) =>
      }
    }
    assert segments[..|segments|] == segments;
    plan := if sawPlanBlock then Some(planText) else None;
  }

  lemma LastPlanNothing(plan: Option<string>)
    ensures LastPlan(plan, []) == plan
  {
  }

  lemma LastPlanStep(segments: seq<Segment>, i: nat)
    requires i < |segments|
    ensures var before := LastPlan(None, AtomsOf(segments[..i]));
            LastPlan(None, AtomsOf(segments[..i + 1])) ==
            match segments[i]
            case PlanStart => Some([])
            case PlanEnd => before
            case Normal(_) => before
            case PlanDelta(delta) => if before.Some? then Some(before.value + delta) else None
  {
    hide TextAtoms;
    var before := LastPlan(None, AtomsOf(segments[..i]));
    assert segments[..i + 1][..i] == segments[..i];
    LastPlanAppend(None, AtomsOf(segments[..i]), SegmentAtoms(segments[i]));
    match segments[i]
    case Normal(text) => LastPlanText(before, false, text);
    case PlanDelta(text) => LastPlanText(before, true, text);
    case PlanStart =>
    case PlanEnd =>
  }
}
