/** What a text with proposed plan blocks means, and the character-driven parser that
    finds it out (src/llm/src/api/proposed_plan_parser.rs).

    A tag line is a line that holds nothing but `<proposed_plan>` or
    `</proposed_plan>` and white space.  `LineAtoms` says line by line what a text
    means; the parser works character by character, over arbitrary chunks, and
    holds a line back only while it could still become a tag line. */
module PlanText {
  import opened Basics

  const OPEN_TAG: string := "<proposed_plan>"
  const CLOSE_TAG: string := "</proposed_plan>"

  /** One character of text, inside or outside a plan block, or one tag. */
  datatype Atom = TextAtom(inPlan: bool, ch: char) | StartAtom | EndAtom

  function TextAtoms(inPlan: bool, text: string): seq<Atom> {
    seq(|text|, i requires 0 <= i < |text| => TextAtom(inPlan, text[i]))
  }

  // ---------------------------------------------------------------------------
  // The line-by-line meaning of a text

  /** Length of the first line of a text, its newline included. */
  function FirstLine(text: string): (n: nat)
    ensures n <= |text|
    ensures text != [] ==> 0 < n
  {
    if text == [] then 0
    else if text[0] == '\n' then 1
    else 1 + FirstLine(text[1..])
  }

  /** What a text means when it starts inside (`active`) or outside a plan block. */
  function LineAtoms(active: bool, text: string): seq<Atom>
    decreases |text|
  {
    if text == [] then
      if active then [EndAtom] else []
    else
      var n := FirstLine(text);
      var (atoms, after) := LineMeaning(active, text[..n]);
      atoms + LineAtoms(after, text[n..])
  }

  function LineMeaning(active: bool, line: string): (seq<Atom>, bool) {
    if Trim(line) == OPEN_TAG && !active then ([StartAtom], true)
    else if Trim(line) == CLOSE_TAG && active then ([EndAtom], false)
    else (TextAtoms(active, line), active)
  }

  // ---------------------------------------------------------------------------
  // The parser, character by character

  datatype State = State(active: bool, detect: bool, buffer: string) {
    /** Between calls a held-back line has no newline and could still be a tag line. */
    predicate Valid() {
      && (!detect ==> buffer == [])
      && (detect ==> '\n' !in buffer && CouldBeTagLine(buffer))
    }
  }

  const INITIAL: State := State(false, true, [])

  predicate IsTagPrefix(slug: string) {
    TrimEnd(slug) <= OPEN_TAG || TrimEnd(slug) <= CLOSE_TAG
  }

  predicate CouldBeTagLine(line: string) {
    TrimStart(line) == [] || IsTagPrefix(TrimStart(line))
  }

  function StripNewline(line: string): string {
    if line != [] && line[|line| - 1] == '\n' then line[..|line| - 1] else line
  }

  /** Decides a complete line: `finish_line`. */
  function CloseLine(active: bool, line: string): (State, seq<Atom>) {
    var slug := TrimEnd(TrimStart(StripNewline(line)));
    if slug == OPEN_TAG && !active then (State(true, true, []), [StartAtom])
    else if slug == CLOSE_TAG && active then (State(false, true, []), [EndAtom])
    else (State(active, true, []), TextAtoms(active, line))
  }

  function Step(s: State, ch: char): (State, seq<Atom>) {
    if !s.detect then
      (s.(detect := ch == '\n'), [TextAtom(s.active, ch)])
    else if ch == '\n' then
      CloseLine(s.active, s.buffer + [ch])
    else if CouldBeTagLine(s.buffer + [ch]) then
      (s.(buffer := s.buffer + [ch]), [])
    else
      (State(s.active, false, []), TextAtoms(s.active, s.buffer + [ch]))
  }

  /** The state after a text and everything reported on the way. */
  function Run(s: State, text: string): (State, seq<Atom>) {
    if text == [] then (s, [])
    else
      var (before, atoms) := Run(s, text[..|text| - 1]);
      var (after, more) := Step(before, text[|text| - 1]);
      (after, atoms + more)
  }

  function FinishAtoms(s: State): seq<Atom> {
    var (t, atoms) := if s.buffer == [] then (s, []) else CloseLine(s.active, s.buffer);
    atoms + if t.active then [EndAtom] else []
  }

  // ---------------------------------------------------------------------------
  // The parser implements the line-by-line meaning

  /** What a parser in state `s` still has to report when `rest` is all that follows. */
  function Remaining(s: State, rest: string): seq<Atom> {
    if s.detect then LineAtoms(s.active, s.buffer + rest)
    else
      var n := FirstLine(rest);
      TextAtoms(s.active, rest[..n]) + LineAtoms(s.active, rest[n..])
  }

  lemma TextAtomsAppend(inPlan: bool, a: string, b: string)
    ensures TextAtoms(inPlan, a + b) == TextAtoms(inPlan, a) + TextAtoms(inPlan, b)
  {
  }

  lemma {:induction false} FirstLineAppend(head: string, rest: string)
    requires '\n' !in head
    ensures FirstLine(head + rest) == |head| + FirstLine(rest)
  {
    if head == [] {
      assert head + rest == rest;
    } else {
      assert (head + rest)[1..] == head[1..] + rest;
      FirstLineAppend(head[1..], rest);
    }
  }

  lemma {:induction false} FirstLineInFront(text: string)
    ensures FirstLine(text[..FirstLine(text)]) == FirstLine(text)
  {
    if text != [] && text[0] != '\n' {
      FirstLineInFront(text[1..]);
      assert text[..FirstLine(text)][1..] == text[1..][..FirstLine(text[1..])];
    }
  }

  /** The newline the code strips before trimming would be trimmed anyway. */
  lemma StripNewlineTrims(line: string)
    ensures TrimEnd(TrimStart(StripNewline(line))) == Trim(line)
  {
    if line != [] && line[|line| - 1] == '\n' {
      var body := line[..|line| - 1];
      assert line == body + ['\n'];
      TrailingNewline(body);
    }
  }

  lemma TrailingNewline(body: string)
    ensures Trim(body + ['\n']) == Trim(body)
  {
    hide TrimEnd;
    assert TrimStart(['\n']) == [] by { assert IsWhitespace('\n'); }
    TrimStartAppend(body, ['\n']);
    TrimEndDropsBlank(TrimStart(body), '\n');
  }

  /** Early flushing is safe: a line with a prefix that cannot be a tag line is not one. */
  lemma NoTagAfterMismatch(active: bool, head: string, rest: string)
    requires !CouldBeTagLine(head)
    ensures LineMeaning(active, head + rest) == (TextAtoms(active, head + rest), active)
  {
    TrimStartAppend(head, rest);
    TrimEndOfPrefix(TrimStart(head), rest);
  }

  /** Deciding a complete line agrees with its meaning. */
  lemma CloseLineMeaning(active: bool, line: string)
    ensures var (atoms, after) := LineMeaning(active, line);
            CloseLine(active, line) == (State(after, true, []), atoms)
  {
    StripNewlineTrims(line);
  }

  lemma LineAtomsSplit(active: bool, line: string, rest: string)
    requires line != [] && FirstLine(line + rest) == |line|
    ensures var (atoms, after) := LineMeaning(active, line);
            LineAtoms(active, line + rest) == atoms + LineAtoms(after, rest)
  {
    assert (line + rest)[..|line|] == line && (line + rest)[|line|..] == rest;
  }

  /** One character moves reports from the future into the past, and nothing else. */
  lemma StepRemaining(s: State, ch: char, rest: string)
    requires s.Valid()
    ensures Step(s, ch).0.Valid()
    ensures Remaining(s, [ch] + rest) == Step(s, ch).1 + Remaining(Step(s, ch).0, rest)
  {
    if s.detect {
      StepDetecting(s, ch, rest);
    } else {
      StepPassing(s, ch, rest);
    }
  }

  lemma EmptyCouldBeTagLine()
    ensures CouldBeTagLine([])
  {
    assert TrimStart("") == [];
  }

  lemma FirstLineOfNewline(rest: string)
    ensures FirstLine(['\n'] + rest) == 1
  {
  }

  lemma StepPassing(s: State, ch: char, rest: string)
    requires s.Valid() && !s.detect
    ensures Step(s, ch).0.Valid()
    ensures Remaining(s, [ch] + rest) == Step(s, ch).1 + Remaining(Step(s, ch).0, rest)
  {
    hide LineMeaning, LineAtoms, CloseLine, CouldBeTagLine;
    EmptyCouldBeTagLine();
    if ch == '\n' {
      assert ([ch] + rest)[..1] == [ch] && ([ch] + rest)[1..] == rest;
      assert [] + rest == rest;
    } else {
      FirstLineAppend([ch], rest);
      var n := FirstLine(rest);
      assert ([ch] + rest)[..n + 1] == [ch] + rest[..n] && ([ch] + rest)[n + 1..] == rest[n..];
      TextAtomsAppend(s.active, [ch], rest[..n]);
    }
  }

  lemma StepDetecting(s: State, ch: char, rest: string)
    requires s.Valid() && s.detect
    ensures Step(s, ch).0.Valid()
    ensures Remaining(s, [ch] + rest) == Step(s, ch).1 + Remaining(Step(s, ch).0, rest)
  {
    hide LineAtoms, LineMeaning, CloseLine, CouldBeTagLine, FirstLine;
    EmptyCouldBeTagLine();
    var line := s.buffer + [ch];
    assert s.buffer + ([ch] + rest) == line + rest;
    if ch == '\n' {
      FirstLineAppend(s.buffer, [ch] + rest);
      FirstLineAppend([], rest);
      FirstLineOfNewline(rest);
      LineAtomsSplit(s.active, line, rest);
      CloseLineMeaning(s.active, line);
      assert [] + rest == rest;
    } else if !CouldBeTagLine(line) {
      StepFlushes(s.active, line, rest);
    }
  }

  lemma StepFlushes(active: bool, line: string, rest: string)
    requires '\n' !in line && !CouldBeTagLine(line)
    ensures LineAtoms(active, line + rest) == TextAtoms(active, line) + Remaining(State(active, false, []), rest)
  {
    hide CouldBeTagLine, LineAtoms, TextAtoms, FirstLine;
    EmptyCouldBeTagLine();
    FirstLineAppend(line, rest);
    var n := FirstLine(rest);
    FirstLineInFront(rest);
    assert line + rest == (line + rest[..n]) + rest[n..];
    FirstLineAppend(line, rest[..n]);
    LineAtomsSplit(active, line + rest[..n], rest[n..]);
    NoTagAfterMismatch(active, line, rest[..n]);
    TextAtomsAppend(active, line, rest[..n]);
  }

  lemma {:induction false} RunRemaining(s: State, text: string, rest: string)
    requires s.Valid()
    ensures Run(s, text).0.Valid()
    ensures Remaining(s, text + rest) == Run(s, text).1 + Remaining(Run(s, text).0, rest)
  {
    hide Step, Remaining;
    if text == [] {
      assert text + rest == rest;
    } else {
      var front, last := text[..|text| - 1], text[|text| - 1];
      assert text + rest == front + ([last] + rest);
      RunRemaining(s, front, [last] + rest);
      StepRemaining(Run(s, front).0, last, rest);
    }
  }

  lemma FinishRemaining(s: State)
    requires s.Valid()
    ensures FinishAtoms(s) == Remaining(s, [])
  {
    assert s.buffer + [] == s.buffer;
    if s.buffer != [] {
      FirstLineAppend(s.buffer, []);
      LineAtomsSplit(s.active, s.buffer, []);
      CloseLineMeaning(s.active, s.buffer);
    }
  }

  /** A whole text, parsed at once. */
  lemma RunIsLineAtoms(text: string)
    ensures Run(INITIAL, text).0.Valid()
    ensures Run(INITIAL, text).1 + FinishAtoms(Run(INITIAL, text).0) == LineAtoms(false, text)
  {
    RunRemaining(INITIAL, text, []);
    assert text + [] == text && [] + text == text;
    FinishRemaining(Run(INITIAL, text).0);
  }

  /** The state after, and the reports of, one `parse` call per chunk. */
  function RunChunks(s: State, chunks: seq<string>): (State, seq<Atom>)
    decreases chunks
  {
    if chunks == [] then (s, [])
    else
      var (t, atoms) := Run(s, chunks[0]);
      var (u, more) := RunChunks(t, chunks[1..]);
      (u, atoms + more)
  }

  lemma {:induction false} RunAppend(s: State, a: string, b: string)
    ensures Run(s, a + b) == (Run(Run(s, a).0, b).0, Run(s, a).1 + Run(Run(s, a).0, b).1)
  {
    hide Step;
    if b == [] {
      assert a + b == a;
      assert Run(s, a).1 + [] == Run(s, a).1;
    } else {
      assert (a + b)[..|a + b| - 1] == a + b[..|b| - 1];
      RunAppend(s, a, b[..|b| - 1]);
      var middle := Run(Run(s, a).0, b[..|b| - 1]);
      var (after, more) := Step(middle.0, b[|b| - 1]);
      assert Run(s, a).1 + middle.1 + more == Run(s, a).1 + (middle.1 + more);
    }
  }

  lemma {:induction false} ChunksAreOneText(s: State, chunks: seq<string>)
    ensures RunChunks(s, chunks) == Run(s, Flatten(chunks))
    decreases chunks
  {
    if chunks != [] {
      ChunksAreOneText(Run(s, chunks[0]).0, chunks[1..]);
      RunAppend(s, chunks[0], Flatten(chunks[1..]));
    }
  }

  /** Chunk boundaries do not matter: every chunking reports the line-by-line meaning. */
  lemma ChunkingIsIrrelevant(chunks: seq<string>)
    ensures var (s, atoms) := RunChunks(INITIAL, chunks);
            atoms + FinishAtoms(s) == LineAtoms(false, Flatten(chunks))
  {
    ChunksAreOneText(INITIAL, chunks);
    RunIsLineAtoms(Flatten(chunks));
  }

  // ---------------------------------------------------------------------------
  // What the line-by-line meaning guarantees

  /** Tags alternate and end closed; text is labelled with the block it stands in. */
  predicate Balanced(active: bool, atoms: seq<Atom>)
    decreases atoms
  {
    if atoms == [] then !active
    else match atoms[0]
      case TextAtom(inPlan, _) => inPlan == active && Balanced(active, atoms[1..])
      case StartAtom => !active && Balanced(true, atoms[1..])
      case EndAtom => active && Balanced(false, atoms[1..])
  }

  lemma {:induction false} TextKeepsBalance(active: bool, text: string, rest: seq<Atom>)
    requires Balanced(active, rest)
    ensures Balanced(active, TextAtoms(active, text) + rest)
  {
    if text == [] {
      assert TextAtoms(active, text) + rest == rest;
    } else {
      TextKeepsBalance(active, text[1..], rest);
      assert (TextAtoms(active, text) + rest)[1..] == TextAtoms(active, text[1..]) + rest;
    }
  }

  lemma {:induction false} MeaningIsBalanced(active: bool, text: string)
    ensures Balanced(active, LineAtoms(active, text))
    decreases |text|
  {
    if text != [] {
      var n := FirstLine(text);
      var (atoms, after) := LineMeaning(active, text[..n]);
      MeaningIsBalanced(after, text[n..]);
      if after == active {
        TextKeepsBalance(active, text[..n], LineAtoms(after, text[n..]));
      } else {
        assert LineAtoms(active, text)[1..] == LineAtoms(after, text[n..]);
      }
    }
  }

  function Lines(text: string): seq<string>
    decreases |text|
  {
    if text == [] then [] else [text[..FirstLine(text)]] + Lines(text[FirstLine(text)..])
  }

  /** The lines that act as tags: an opening tag outside, a closing tag inside a block. */
  function WithoutTagLines(active: bool, lines: seq<string>): seq<string>
    decreases lines
  {
    if lines == [] then []
    else if Trim(lines[0]) == (if active then CLOSE_TAG else OPEN_TAG) then
      WithoutTagLines(!active, lines[1..])
    else [lines[0]] + WithoutTagLines(active, lines[1..])
  }

  function AtomChars(atom: Atom): string {
    if atom.TextAtom? then [atom.ch] else []
  }

  function CharsOf(atoms: seq<Atom>): string {
    if atoms == [] then [] else AtomChars(atoms[0]) + CharsOf(atoms[1..])
  }

  lemma {:induction false} CharsAppend(a: seq<Atom>, b: seq<Atom>)
    ensures CharsOf(a + b) == CharsOf(a) + CharsOf(b)
  {
    hide AtomChars;
    if a == [] {
      assert a + b == b;
    } else {
      assert (a + b)[1..] == a[1..] + b;
      CharsAppend(a[1..], b);
      assert AtomChars(a[0]) + (CharsOf(a[1..]) + CharsOf(b)) == AtomChars(a[0]) + CharsOf(a[1..]) + CharsOf(b);
    }
  }

  lemma {:induction false} CharsOfText(inPlan: bool, text: string)
    ensures CharsOf(TextAtoms(inPlan, text)) == text
  {
    if text != [] {
      CharsOfText(inPlan, text[1..]);
      assert TextAtoms(inPlan, text)[1..] == TextAtoms(inPlan, text[1..]);
    }
  }

  lemma {:induction false} LinesCoverText(text: string)
    ensures Flatten(Lines(text)) == text
    decreases |text|
  {
    hide FirstLine;
    if text != [] {
      var n := FirstLine(text);
      LinesCoverText(text[n..]);
      assert Lines(text) == [text[..n]] + Lines(text[n..]);
      assert Flatten(Lines(text)) == text[..n] + Flatten(Lines(text[n..]));
    }
  }

  /** Only tag lines disappear: the reported text is the input without them. */
  lemma {:induction false} OnlyTagLinesDisappear(active: bool, text: string)
    ensures Flatten(Lines(text)) == text
    ensures CharsOf(LineAtoms(active, text)) == Flatten(WithoutTagLines(active, Lines(text)))
    decreases |text|
  {
    LinesCoverText(text);
    if text != [] {
      var n := FirstLine(text);
      var (atoms, after) := LineMeaning(active, text[..n]);
      OnlyTagLinesDisappear(after, text[n..]);
      CharsAppend(atoms, LineAtoms(after, text[n..]));
      CharsOfText(active, text[..n]);
      assert Lines(text)[1..] == Lines(text[n..]);
    }
  }
}
