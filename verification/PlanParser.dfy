/** Segments, and the parser object that reports them chunk by chunk
    (src/llm/src/api/proposed_plan_parser.rs). */
module PlanParser {
  import opened Basics
  import opened PlanText

  datatype Segment =
    | Normal(text: string)
    | PlanStart
    | PlanDelta(text: string)
    | PlanEnd

  function SegmentAtoms(segment: Segment): seq<Atom> {
    match segment
    case Normal(text) => TextAtoms(false, text)
    case PlanDelta(text) => TextAtoms(true, text)
    case PlanStart => [StartAtom]
    case PlanEnd => [EndAtom]
  }

  function AtomsOf(segments: seq<Segment>): seq<Atom> {
    if segments == [] then []
    else AtomsOf(segments[..|segments| - 1]) + SegmentAtoms(segments[|segments| - 1])
  }

  // ---------------------------------------------------------------------------
  // Segments: the coalesced form of the reports

  /** Adds a report, merging text into a preceding segment of its own kind: `push_segment`. */
  function PushSegment(segments: seq<Segment>, segment: Segment): seq<Segment> {
    var n := |segments|;
    match segment
    case Normal(delta) =>
      if delta == [] then segments
      else if n > 0 && segments[n - 1].Normal? then
        segments[..n - 1] + [Normal(segments[n - 1].text + delta)]
      else segments + [segment]
    case PlanDelta(delta) =>
      if delta == [] then segments
      else if n > 0 && segments[n - 1].PlanDelta? then
        segments[..n - 1] + [PlanDelta(segments[n - 1].text + delta)]
      else segments + [segment]
    case PlanStart => segments + [PlanStart]
    case PlanEnd => segments + [PlanEnd]
  }

  lemma PushKeepsAtoms(segments: seq<Segment>, segment: Segment)
    ensures AtomsOf(PushSegment(segments, segment)) == AtomsOf(segments) + SegmentAtoms(segment)
  {
    hide TextAtoms;
    var r := PushSegment(segments, segment);
    if (segment.Normal? || segment.PlanDelta?) && segment.text == [] {
      EmptyText();
    } else if |r| == |segments| {
      var last := segments[|segments| - 1];
      TextAtomsAppend(last.PlanDelta?, last.text, segment.text);
      assert r[..|r| - 1] == segments[..|r| - 1];
    } else {
      assert r[..|r| - 1] == segments;
    }
  }

  lemma EmptyText()
    ensures TextAtoms(true, []) == [] && TextAtoms(false, []) == []
  {
  }

  /** No empty text and no two neighbouring texts of one kind. */
  predicate Coalesced(segments: seq<Segment>) {
    && (forall i :: 0 <= i < |segments| ==> segments[i].Normal? || segments[i].PlanDelta? ==> segments[i].text != [])
    && (forall i :: 0 < i < |segments| ==> !(segments[i - 1].Normal? && segments[i].Normal?))
    && (forall i :: 0 < i < |segments| ==> !(segments[i - 1].PlanDelta? && segments[i].PlanDelta?))
  }

  lemma PushKeepsCoalesced(segments: seq<Segment>, segment: Segment)
    requires Coalesced(segments)
    ensures Coalesced(PushSegment(segments, segment))
  {
  }

  /** The shortest segments for some reports: what one call returns for them. */
  function Coalesce(atoms: seq<Atom>): seq<Segment> {
    if atoms == [] then []
    else PushSegment(Coalesce(atoms[..|atoms| - 1]), AtomSegment(atoms[|atoms| - 1]))
  }

  function AtomSegment(atom: Atom): Segment {
    match atom
    case TextAtom(inPlan, ch) => TextSegment(inPlan, [ch])
    case StartAtom => PlanStart
    case EndAtom => PlanEnd
  }

  lemma {:induction false} CoalesceKeepsAtoms(atoms: seq<Atom>)
    ensures AtomsOf(Coalesce(atoms)) == atoms
  {
    hide PushSegment, AtomsOf, SegmentAtoms, AtomSegment;
    if atoms == [] {
      assert AtomsOf([]) == [] by { NoAtoms(); }
    } else {
      var n := |atoms| - 1;
      CoalesceKeepsAtoms(atoms[..n]);
      PushKeepsAtoms(Coalesce(atoms[..n]), AtomSegment(atoms[n]));
      AtomSegmentIsOneAtom(atoms[n]);
      assert atoms == atoms[..n] + [atoms[n]];
    }
  }

  lemma NoAtoms()
    ensures AtomsOf([]) == []
  {
  }

  lemma AtomSegmentIsOneAtom(atom: Atom)
    ensures SegmentAtoms(AtomSegment(atom)) == [atom]
  {
  }

  lemma {:induction false} CoalesceCoalesces(atoms: seq<Atom>)
    ensures Coalesced(Coalesce(atoms))
  {
    hide PushSegment;
    if atoms != [] {
      var n := |atoms| - 1;
      CoalesceCoalesces(atoms[..n]);
      PushKeepsCoalesced(Coalesce(atoms[..n]), AtomSegment(atoms[n]));
    }
  }

  function TextSegment(inPlan: bool, text: string): Segment {
    if inPlan then PlanDelta(text) else Normal(text)
  }

  lemma CoalesceSnoc(atoms: seq<Atom>, inPlan: bool, ch: char)
    ensures Coalesce(atoms + [TextAtom(inPlan, ch)]) == PushSegment(Coalesce(atoms), TextSegment(inPlan, [ch]))
  {
    hide PushSegment;
    assert (atoms + [TextAtom(inPlan, ch)])[..|atoms|] == atoms;
  }

  /** Pushing a text at once or character by character makes no difference. */
  lemma {:induction false} CoalescePushText(atoms: seq<Atom>, inPlan: bool, text: string)
    ensures Coalesce(atoms + TextAtoms(inPlan, text)) == PushSegment(Coalesce(atoms), TextSegment(inPlan, text))
  {
    hide Coalesce, PushSegment;
    if text == [] {
      assert atoms + TextAtoms(inPlan, text) == atoms;
      PushNothing(Coalesce(atoms), inPlan);
    } else {
      var n := |text| - 1;
      CoalescePushText(atoms, inPlan, text[..n]);
      var front := atoms + TextAtoms(inPlan, text[..n]);
      assert atoms + TextAtoms(inPlan, text) == front + [TextAtom(inPlan, text[n])];
      CoalesceSnoc(front, inPlan, text[n]);
      assert text == text[..n] + [text[n]];
      PushTextTwice(Coalesce(atoms), inPlan, text[..n], [text[n]]);
    }
  }

  lemma CoalescePushTag(atoms: seq<Atom>)
    ensures Coalesce(atoms + [StartAtom]) == PushSegment(Coalesce(atoms), PlanStart)
    ensures Coalesce(atoms + [EndAtom]) == PushSegment(Coalesce(atoms), PlanEnd)
  {
    hide PushSegment;
    assert (atoms + [StartAtom])[..|atoms|] == atoms;
    assert (atoms + [EndAtom])[..|atoms|] == atoms;
  }

  lemma PushTextTwice(segments: seq<Segment>, inPlan: bool, a: string, b: string)
    requires b != []
    ensures PushSegment(PushSegment(segments, TextSegment(inPlan, a)), TextSegment(inPlan, b))
         == PushSegment(segments, TextSegment(inPlan, a + b))
  {
    if a == [] {
      assert a + b == b;
    } else {
      var n := |segments|;
      if n > 0 && (if inPlan then segments[n - 1].PlanDelta? else segments[n - 1].Normal?) {
        var t := segments[n - 1].text;
        assert (t + a) + b == t + (a + b);
        assert (segments[..n - 1] + [TextSegment(inPlan, t + a)])[..n - 1] == segments[..n - 1];
      } else {
        assert (segments + [TextSegment(inPlan, a)])[..n] == segments;
      }
    }
  }

  // ---------------------------------------------------------------------------
  // The parser object

  class ProposedPlanParser {
    var activeTag: bool
    var detectTag: bool
    var lineBuffer: string

    function Current(): State
      reads this
    {
      State(activeTag, detectTag, lineBuffer)
    }

    constructor ()
      ensures Current() == INITIAL
    {
      activeTag, detectTag, lineBuffer := false, true, [];
    }

    /** Text reaches `segments` in runs, yet exactly as `Run` reports it per character. */
    method Parse(delta: string) returns (segments: seq<Segment>)
      modifies this
      ensures Current() == Run(old(Current()), delta).0
      ensures segments == Coalesce(Run(old(Current()), delta).1)
    {
      hide Run, Coalesce, PushSegment, CloseLine, CouldBeTagLine, TextAtoms;
      segments := [];
      var run: string := [];
      ghost var start := Current();
      ghost var atoms: seq<Atom> := [];
      RunNothing(start);
      CoalesceNothing();
      PushNothing([], activeTag);
      assert delta[..0] == [];
      for i := 0 to |delta|
        invariant Run(start, delta[..i]) == (Current(), atoms)
        invariant PushSegment(segments, TextSegment(activeTag, run)) == Coalesce(atoms)
      {
        var ch := delta[i];
        RunStep(start, delta, i);
        if detectTag {
          if run != [] {
            segments := PushText(run, segments);
            run := [];
          }
          PushNothing(segments, activeTag);
          lineBuffer := lineBuffer + [ch];
          if ch == '\n' {
            segments := FinishLine(segments, atoms);
            atoms := Run(start, delta[..i + 1]).1;
            PushNothing(segments, activeTag);
            continue;
          }
          if CouldBeTagLine(lineBuffer) {
            assert atoms + [] == atoms;
            continue;
          }
          var buffered := lineBuffer;
          lineBuffer := [];
          detectTag := false;
          CoalescePushText(atoms, activeTag, buffered);
          atoms := atoms + TextAtoms(activeTag, buffered);
          segments := PushText(buffered, segments);
          PushNothing(segments, activeTag);
          continue;
        }
        PushTextTwice(segments, activeTag, run, [ch]);
        CoalesceSnoc(atoms, activeTag, ch);
        atoms := atoms + [TextAtom(activeTag, ch)];
        run := run + [ch];
        if ch == '\n' {
          segments := PushText(run, segments);
          run := [];
          PushNothing(segments, activeTag);
          detectTag := true;
        }
      }
      assert delta[..|delta|] == delta;
      PushNothing(segments, activeTag);
      if run != [] {
        segments := PushText(run, segments);
      }
    }

    method Finish() returns (segments: seq<Segment>)
      modifies this
      ensures Current() == INITIAL
      ensures segments == Coalesce(FinishAtoms(old(Current())))
    {
      hide CloseLine, Coalesce, PushSegment;
      segments := [];
      CoalesceNothing();
      CloseLineClears(activeTag, lineBuffer);
      ghost var atoms: seq<Atom> := [];
      if lineBuffer != [] {
        atoms := CloseLine(activeTag, lineBuffer).1;
        assert [] + atoms == atoms;
        segments := FinishLine(segments, []);
      }
      if activeTag {
        activeTag := false;
        CoalescePushTag(atoms);
        segments := PushSegment(segments, PlanEnd);
      }
      assert atoms + [] == atoms;
      detectTag := true;
    }

    /** Decides the line in the buffer; `before` are the reports so far. */
    method FinishLine(segments: seq<Segment>, ghost before: seq<Atom>) returns (r: seq<Segment>)
      requires segments == Coalesce(before)
      modifies this
      ensures Current() == CloseLine(old(activeTag), old(lineBuffer)).0
      ensures r == Coalesce(before + CloseLine(old(activeTag), old(lineBuffer)).1)
    {
      hide Coalesce, PushSegment, StripNewline, TrimStart, TrimEnd, TextAtoms;
      CoalescePushTag(before);
      CoalescePushText(before, activeTag, lineBuffer);
      var line := lineBuffer;
      lineBuffer := [];
      var slug := TrimEnd(TrimStart(StripNewline(line)));
      if slug == OPEN_TAG && !activeTag {
        r := PushSegment(segments, PlanStart);
        activeTag, detectTag := true, true;
        return;
      }
      if slug == CLOSE_TAG && activeTag {
        r := PushSegment(segments, PlanEnd);
        activeTag, detectTag := false, true;
        return;
      }
      detectTag := true;
      r := PushText(line, segments);
    }

    function PushText(text: string, segments: seq<Segment>): seq<Segment>
      reads this
    {
      PushSegment(segments, TextSegment(activeTag, text))
    }
  }

  lemma CloseLineClears(active: bool, line: string)
    ensures CloseLine(active, line).0.detect && CloseLine(active, line).0.buffer == []
  {
  }

  lemma RunNothing(s: State)
    ensures Run(s, []) == (s, [])
  {
  }

  lemma CoalesceNothing()
    ensures Coalesce([]) == []
  {
  }

  lemma PushNothing(segments: seq<Segment>, inPlan: bool)
    ensures PushSegment(segments, TextSegment(inPlan, [])) == segments
  {
  }

  lemma RunStep(s: State, text: string, i: nat)
    requires i < |text|
    ensures var (before, atoms) := Run(s, text[..i]);
            var (after, more) := Step(before, text[i]);
            Run(s, text[..i + 1]) == (after, atoms + more)
  {
    hide Step;
    assert text[..i + 1][..i] == text[..i];
  }
}
