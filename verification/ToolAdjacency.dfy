/** Strict chat validators want every tool_calls message followed immediately by exactly its
    tool messages.  For transcripts of user inputs and turns the built request has that form
    exactly if no turn keeps an assistant text between two of its calls and every turn has answered
    all its calls (src/llm/src/api/requests/chat.rs:213-248, 372-408). */
module ToolAdjacency {
  import opened Basics
  import opened Transcript
  import opened ChatRequest
  import opened RequestMeaning

  // ---------------------------------------------------------------------------
  // The shape of transcripts and of requests

  /** User inputs, or a turn: what it says in any order, then the results of its first calls; of
      all of them unless it failed. */
  datatype Segment =
    | Inputs(inputs: seq<TranscriptItem>)
    | Turn(said: seq<TranscriptItem>, results: seq<TranscriptItem>)

  function SegmentItems(s: Segment): seq<TranscriptItem> {
    match s
    case Inputs(inputs) => inputs
    case Turn(said, results) => said + results
  }

  function ItemsOf(segments: seq<Segment>): seq<TranscriptItem> {
    if segments == [] then []
    else ItemsOf(segments[..|segments| - 1]) + SegmentItems(segments[|segments| - 1])
  }

  predicate IsJsonCall(item: TranscriptItem) {
    item.ToolCall? && item.payload.JsonArguments?
  }

  predicate IsTextMessage(item: TranscriptItem) {
    IsAssistant(item) && !HasImage(item.content)
  }

  predicate IsSaid(item: TranscriptItem) {
    item.Reasoning? || IsJsonCall(item) || IsTextMessage(item)
  }

  predicate AllSaid(items: seq<TranscriptItem>) {
    forall i :: 0 <= i < |items| ==> IsSaid(items[i])
  }

  function CallIds(items: seq<TranscriptItem>): seq<string> {
    if items == [] then []
    else
      var n := |items| - 1;
      CallIds(items[..n]) + if items[n].ToolCall? then [items[n].callId] else []
  }

  predicate WellFormed(s: Segment) {
    match s
    case Inputs(inputs) => forall i :: 0 <= i < |inputs| ==> IsUser(inputs[i])
    case Turn(said, results) => AllSaid(said) && ResultsAnswerFirst(results, CallIds(said))
  }

  predicate ResultsAnswerFirst(results: seq<TranscriptItem>, ids: seq<string>) {
    |results| <= |ids| && ResultsAnswer(results, ids[..|results|])
  }

  /** A turn has a result for each of its calls. */
  predicate Answered(s: Segment) {
    s.Turn? ==> |s.results| == |CallIds(s.said)|
  }

  predicate ResultsAnswer(results: seq<TranscriptItem>, ids: seq<string>) {
    && |results| == |ids|
    && forall i :: 0 <= i < |results| ==> results[i].ToolResult? && results[i].resultCallId == ids[i]
  }

  // ---------------------------------------------------------------------------
  // A kept text between two calls

  /** An assistant message that does not repeat the assistant text before it. */
  predicate IsKept(before: seq<TranscriptItem>, item: TranscriptItem) {
    IsAssistant(item) && PreviousAssistantText(before) != Some(ContentText(item.content))
  }

  /** Behind `before`, these items keep a text behind a call. */
  predicate TextBehindCall(before: seq<TranscriptItem>, said: seq<TranscriptItem>) {
    said != []
    && var n := |said| - 1;
       TextBehindCall(before, said[..n]) || (CallIds(said[..n]) != [] && IsKept(before + said[..n], said[n]))
  }

  /** Behind `before`, these items keep a text between two calls. */
  predicate Splits(before: seq<TranscriptItem>, said: seq<TranscriptItem>) {
    said != []
    && var n := |said| - 1;
       Splits(before, said[..n]) || (TextBehindCall(before, said[..n]) && said[n].ToolCall?)
  }

  /** A call, a kept text and a call, at these places. */
  predicate SplitAt(before: seq<TranscriptItem>, said: seq<TranscriptItem>, i: nat, j: nat, k: nat) {
    i < j < k < |said| && said[i].ToolCall? && IsKept(before + said[..j], said[j]) && said[k].ToolCall?
  }

  lemma {:induction false} CallIsThere(said: seq<TranscriptItem>) returns (i: nat)
    ensures CallIds(said) != [] ==> i < |said| && said[i].ToolCall?
    ensures CallIds(said) == [] ==> forall k :: 0 <= k < |said| ==> !said[k].ToolCall?
  {
    i := 0;
    if said != [] {
      var n := |said| - 1;
      i := CallIsThere(said[..n]);
      if said[n].ToolCall? {
        i := n;
      }
    }
  }

  lemma {:induction false} TextIsThere(before: seq<TranscriptItem>, said: seq<TranscriptItem>) returns (i: nat, j: nat)
    requires TextBehindCall(before, said)
    ensures i < j < |said| && said[i].ToolCall? && IsKept(before + said[..j], said[j])
  {
    hide IsKept;
    var n := |said| - 1;
    if TextBehindCall(before, said[..n]) {
      i, j := TextIsThere(before, said[..n]);
      assert said[..n][..j] == said[..j];
    } else {
      i := CallIsThere(said[..n]);
      j := n;
    }
  }

  lemma {:induction false} SplitIsThere(before: seq<TranscriptItem>, said: seq<TranscriptItem>)
    returns (i: nat, j: nat, k: nat)
    requires Splits(before, said)
    ensures SplitAt(before, said, i, j, k)
  {
    hide IsKept;
    var n := |said| - 1;
    if Splits(before, said[..n]) {
      i, j, k := SplitIsThere(before, said[..n]);
      assert said[..n][..j] == said[..j];
    } else {
      i, j := TextIsThere(before, said[..n]);
      k := n;
      assert said[..n][..j] == said[..j];
    }
  }

  lemma {:induction false} TextIsFound(before: seq<TranscriptItem>, said: seq<TranscriptItem>, i: nat, j: nat)
    requires i < j < |said| && said[i].ToolCall? && IsKept(before + said[..j], said[j])
    ensures TextBehindCall(before, said)
  {
    hide IsKept;
    var n := |said| - 1;
    if j < n {
      assert said[..n][..j] == said[..j];
      TextIsFound(before, said[..n], i, j);
    } else {
      var k := CallIsThere(said[..n]);
      assert said[..n][i] == said[i];
    }
  }

  /** Read out: a turn splits exactly if a kept text stands between two of its calls. */
  lemma {:induction false} SplitsIff(before: seq<TranscriptItem>, said: seq<TranscriptItem>)
    ensures Splits(before, said) <==> exists i, j, k :: SplitAt(before, said, i, j, k)
  {
    hide SplitAt;
    if Splits(before, said) {
      var i, j, k := SplitIsThere(before, said);
      assert SplitAt(before, said, i, j, k);
    }
    if i, j, k :| SplitAt(before, said, i, j, k) {
      SplitIsFound(before, said, i, j, k);
    }
  }

  lemma {:induction false} SplitIsFound(before: seq<TranscriptItem>, said: seq<TranscriptItem>, i: nat, j: nat, k: nat)
    requires SplitAt(before, said, i, j, k)
    ensures Splits(before, said)
  {
    hide IsKept;
    var n := |said| - 1;
    assert said[..n][..j] == said[..j];
    if k < n {
      SplitIsFound(before, said[..n], i, j, k);
    } else {
      TextIsFound(before, said[..n], i, j);
    }
  }

  // ---------------------------------------------------------------------------
  // Adjacent messages

  predicate IsTool(m: WireMessage) { m.role == "tool" }

  predicate Answers(call: WireCall, m: WireMessage) {
    IsTool(m) && call.FunctionCall? && m.toolCallId == Some(call.id)
  }

  /** Every message with calls is followed by exactly one answer per call, in call order, and no
      tool message stands anywhere else. */
  predicate Adjacent(messages: seq<WireMessage>) {
    if messages == [] then true
    else
      var n := |OrEmpty(messages[0].toolCalls)|;
      && !IsTool(messages[0])
      && n < |messages|
      && FirstAnswered(messages, n)
      && Adjacent(messages[n + 1..])
  }

  /** The `n` messages behind the first one answer its calls. */
  predicate FirstAnswered(messages: seq<WireMessage>, n: nat)
    requires n < |messages| && n == |OrEmpty(messages[0].toolCalls)|
  {
    forall i :: 0 <= i < n ==> Answers(messages[0].toolCalls.value[i], messages[i + 1])
  }

  lemma FirstAnsweredAppend(a: seq<WireMessage>, b: seq<WireMessage>, n: nat)
    requires n < |a| && n == |OrEmpty(a[0].toolCalls)| && FirstAnswered(a, n)
    ensures FirstAnswered(a + b, n) && (a + b)[n + 1..] == a[n + 1..] + b
  {
    hide Answers;
  }

  lemma {:induction false} AdjacentAppend(a: seq<WireMessage>, b: seq<WireMessage>)
    requires Adjacent(a) && Adjacent(b)
    ensures Adjacent(a + b)
  {
    if a == [] {
      assert a + b == b;
    } else {
      var n := |OrEmpty(a[0].toolCalls)|;
      hide FirstAnswered, IsTool;
      AdjacentAppend(a[n + 1..], b);
      FirstAnsweredAppend(a, b, n);
    }
  }

  lemma AdjacentOne(m: WireMessage)
    requires !IsTool(m) && OrEmpty(m.toolCalls) == []
    ensures Adjacent([m])
  {
    assert [m][1..] == [];
  }

  /** Messages behind adjacent ones are adjacent if the whole is. */
  lemma {:induction false} AdjacentRest(a: seq<WireMessage>, b: seq<WireMessage>)
    requires Adjacent(a) && Adjacent(a + b)
    ensures Adjacent(b)
  {
    if a == [] {
      assert a + b == b;
    } else {
      hide Adjacent;
      var n := |OrEmpty(a[0].toolCalls)|;
      AdjacentBehind(a);
      AdjacentBehind(a + b);
      DropWithin(a, b, n + 1);
      AdjacentRest(a[n + 1..], b);
    }
  }

  lemma DropWithin<T>(a: seq<T>, b: seq<T>, n: nat)
    requires n <= |a|
    ensures (a + b)[n..] == a[n..] + b
    ensures a != [] ==> (a + b)[0] == a[0]
  {
  }

  /** What stands behind `lo`, part by part. */
  lemma PartsBehind<T>(items: seq<T>, lo: nat, a: seq<T>, b: seq<T>)
    requires lo <= |items| && items[lo..] == a + b
    ensures |items| == lo + |a| + |b| && items[lo..lo + |a|] == a
    ensures forall i :: lo + |a| <= i < |items| ==> items[i] == b[i - lo - |a|]
  {
    var rest := items[lo..];
    assert items[lo..lo + |a|] == rest[..|a|];
    assert forall i :: lo + |a| <= i < |items| ==> items[i] == rest[i - lo];
  }

  lemma AdjacentBehind(messages: seq<WireMessage>)
    requires messages != [] && Adjacent(messages)
    ensures var n := |OrEmpty(messages[0].toolCalls)|;
            n < |messages| && Adjacent(messages[n + 1..])
  {
    hide FirstAnswered, IsTool;
  }

  // ---------------------------------------------------------------------------
  // One pass over some items

  /** The items of a request, with what is anchored to them. */
  datatype Pass = Pass(items: seq<TranscriptItem>, anchors: map<nat, string>, handling: DeveloperRoleHandling)

  /** The message pass restricted to the items from `lo` to `hi`. */
  function AddRange(b: Builder, p: Pass, lo: nat, hi: nat): Builder
    requires lo <= hi <= |p.items|
    decreases hi - lo
  {
    if lo == hi then b
    else AddItem(AddRange(b, p, lo, hi - 1), p.items[hi - 1], Lookup(p.anchors, hi - 1), p.handling)
  }

  lemma {:induction false} RangeSplit(b: Builder, p: Pass, lo: nat, mid: nat, hi: nat)
    requires lo <= mid <= hi <= |p.items|
    ensures AddRange(b, p, lo, hi) == AddRange(AddRange(b, p, lo, mid), p, mid, hi)
    decreases hi - mid
  {
    hide AddItem;
    if mid < hi {
      RangeSplit(b, p, lo, mid, hi - 1);
    }
  }

  lemma {:induction false} RangeIsAll(b: Builder, p: Pass, n: nat)
    requires n <= |p.items|
    ensures AddItems(b, p.items, n, p.anchors, p.handling) == AddRange(b, p, 0, n)
  {
    hide AddItem;
    if 0 < n {
      RangeIsAll(b, p, n - 1);
    }
  }

  lemma {:induction false} RangeOfPrefix(b: Builder, p: Pass, more: seq<TranscriptItem>, hi: nat)
    requires hi <= |p.items|
    ensures AddRange(b, p.(items := p.items + more), 0, hi) == AddRange(b, p, 0, hi)
  {
    hide AddItem;
    if 0 < hi {
      RangeOfPrefix(b, p, more, hi - 1);
    }
  }

  /** The last message takes neither calls nor folded text. */
  predicate Sealed(messages: seq<WireMessage>) {
    messages == [] || messages[|messages| - 1].role != ASSISTANT || messages[|messages| - 1].toolCalls.None?
  }

  /** The messages so far are adjacent, and nothing is open. */
  predicate Settled(messages: seq<WireMessage>) {
    messages != [] && messages[0].role == "system" && Adjacent(messages) && Sealed(messages)
  }

  lemma SettledAppend(messages: seq<WireMessage>, added: seq<WireMessage>)
    requires Settled(messages) && Adjacent(added) && Sealed(messages + added)
    ensures Settled(messages + added)
  {
    hide Adjacent, Sealed;
    AdjacentAppend(messages, added);
  }

  lemma {:induction false} InputsSettle(b: Builder, p: Pass, lo: nat, hi: nat)
    requires lo <= hi <= |p.items| && Settled(b.messages)
    requires forall i :: lo <= i < hi ==> IsUser(p.items[i])
    ensures Settled(AddRange(b, p, lo, hi).messages)
    decreases hi - lo
  {
    if lo < hi {
      hide Adjacent, HasImage, ContentText, ContentWireParts;
      InputsSettle(b, p, lo, hi - 1);
      var m := OtherMessage("user", p.items[hi - 1].content);
      AdjacentOne(m);
      SettledAppend(AddRange(b, p, lo, hi - 1).messages, [m]);
    }
  }

  // ---------------------------------------------------------------------------
  // What a turn says

  /** What a turn has added behind `base`: plain messages, then perhaps a message with calls, then
      what should not stand behind it. */
  datatype Added = Added(plain: seq<WireMessage>, calling: Option<WireMessage>, tail: seq<WireMessage>)

  function AddedTo(base: seq<WireMessage>, a: Added): seq<WireMessage> {
    base + a.plain + (if a.calling.Some? then [a.calling.value] else []) + a.tail
  }

  predicate IsPlain(m: WireMessage) {
    m.role == ASSISTANT && m.toolCalls.None? && m.content.TextContent?
  }

  predicate AllPlain(messages: seq<WireMessage>) {
    forall i :: 0 <= i < |messages| ==> IsPlain(messages[i])
  }

  /** A message with calls of these ids. */
  predicate CallsIds(m: WireMessage, ids: seq<string>) {
    && m.role == ASSISTANT && m.toolCalls.Some? && |m.toolCalls.value| == |ids|
    && forall i :: 0 <= i < |ids| ==> m.toolCalls.value[i].FunctionCall? && m.toolCalls.value[i].id == ids[i]
  }

  /** How much of the turn stands in the message with calls. */
  predicate Fits(a: Added, ids: seq<string>, text: bool, split: bool) {
    && AllPlain(a.plain)
    && (a.calling.Some? <==> ids != [])
    && if split then
         && a.calling.Some? && OrEmpty(a.calling.value.toolCalls) != []
         && a.tail != [] && a.tail[0].role == ASSISTANT
       else
         && a.tail == []
         && (a.calling.Some? ==>
              && CallsIds(a.calling.value, ids)
              && if text then a.calling.value.content.TextContent? else a.calling.value.content.NullContent?)
  }

  /** The last message a turn may change. */
  lemma LastAdded(base: seq<WireMessage>, a: Added)
    ensures var all := AddedTo(base, a);
            if a.tail != [] then all != [] && all[|all| - 1] == a.tail[|a.tail| - 1]
            else if a.calling.Some? then all != [] && all[|all| - 1] == a.calling.value
            else if a.plain != [] then all != [] && all[|all| - 1] == a.plain[|a.plain| - 1]
            else all == base
  {
    assert base + [] + [] + [] == base;
  }

  lemma AppendPlain(base: seq<WireMessage>, a: Added, m: WireMessage)
    requires a.calling.None? && a.tail == []
    ensures Append(AddedTo(base, a), m) == AddedTo(base, a.(plain := a.plain + [m]))
    ensures Append(AddedTo(base, a), m) == AddedTo(base, a.(calling := Some(m)))
  {
  }

  lemma AppendTail(base: seq<WireMessage>, a: Added, m: WireMessage)
    ensures Append(AddedTo(base, a), m) == AddedTo(base, a.(tail := a.tail + [m]))
  {
  }

  lemma ReplaceTail(base: seq<WireMessage>, a: Added, m: WireMessage)
    requires a.tail != []
    ensures var all := AddedTo(base, a);
            all != [] && ReplaceLast(all, m) == AddedTo(base, a.(tail := ReplaceLast(a.tail, m)))
  {
    var all := AddedTo(base, a);
    var front := a.tail[..|a.tail| - 1];
    assert all[..|all| - 1] == AddedTo(base, a.(tail := front));
  }

  lemma ReplaceCalling(base: seq<WireMessage>, a: Added, m: WireMessage)
    requires a.calling.Some? && a.tail == []
    ensures var all := AddedTo(base, a);
            all != [] && ReplaceLast(all, m) == AddedTo(base, a.(calling := Some(m)))
  {
    var all := AddedTo(base, a);
    assert all[..|all| - 1] == base + a.plain;
  }

  /** The flags of a turn with one more item. */
  lemma OneMoreSaid(before: seq<TranscriptItem>, said: seq<TranscriptItem>, item: TranscriptItem)
    ensures var more := said + [item];
            && CallIds(more) == CallIds(said) + (if item.ToolCall? then [item.callId] else [])
            && (TextBehindCall(before, more)
                <==> TextBehindCall(before, said) || (CallIds(said) != [] && IsKept(before + said, item)))
            && (Splits(before, more) <==> Splits(before, said) || (TextBehindCall(before, said) && item.ToolCall?))
  {
    hide IsKept;
    assert (said + [item])[..|said|] == said;
  }

  lemma {:induction false} TextNeedsCall(before: seq<TranscriptItem>, said: seq<TranscriptItem>)
    ensures TextBehindCall(before, said) ==> CallIds(said) != []
    ensures Splits(before, said) ==> TextBehindCall(before, said)
  {
    if said != [] {
      hide IsKept;
      TextNeedsCall(before, said[..|said| - 1]);
    }
  }

  /** A call joins the message with calls, or begins it, or comes too late. */
  lemma CallFits(base: seq<WireMessage>, a: Added, ids: seq<string>, text: bool, split: bool, call: WireCall,
                 reasoning: Option<string>)
    returns (c: Added)
    requires Sealed(base) && Fits(a, ids, text, split) && (split ==> text) && (text ==> ids != []) && call.FunctionCall?
    ensures PushToolCall(AddedTo(base, a), call, reasoning) == AddedTo(base, c)
    ensures Fits(c, ids + [call.id], text, split || text)
  {
    hide MergeReasoning, AddedTo;
    LastAdded(base, a);
    var all := AddedTo(base, a);
    var alone := WireMessage(ASSISTANT, NullContent, Some([call]), None, reasoning);
    if TakesCalls(all) {
      var m := all[|all| - 1];
      var n := m.(toolCalls := Some(m.toolCalls.value + [call]), reasoning := MergeReasoning(m.reasoning, reasoning));
      if a.tail != [] {
        ReplaceTail(base, a, n);
        c := a.(tail := ReplaceLast(a.tail, n));
      } else {
        ReplaceCalling(base, a, n);
        c := a.(calling := Some(n));
      }
    } else if a.calling.Some? {
      AppendTail(base, a, alone);
      c := a.(tail := a.tail + [alone]);
    } else {
      AppendPlain(base, a, alone);
      c := a.(calling := Some(alone));
    }
  }

  /** A kept text is folded into the message with calls, or stands alone. */
  lemma TextFits(base: seq<WireMessage>, a: Added, ids: seq<string>, text: bool, split: bool, b: Builder,
                 content: seq<ContentItem>, reasoning: Option<string>)
    returns (c: Added)
    requires Sealed(base) && Fits(a, ids, text, split) && (split ==> text)
    requires b.messages == AddedTo(base, a) && !HasImage(content) && b.lastAssistantText != Some(ContentText(content))
    ensures AddAssistant(b, content, reasoning).messages == AddedTo(base, c)
    ensures Fits(c, ids, text || ids != [], split)
  {
    hide MergeReasoning, AddedTo, HasImage, ContentText;
    LastAdded(base, a);
    var all := b.messages;
    var m := PlainMessage(ASSISTANT, TextContent(ContentText(content)), reasoning);
    assert a.calling.Some? ==> OrEmpty(a.calling.value.toolCalls) != [];
    assert a.calling.None? ==> a.tail == [];
    if all != [] && HoldsCalls(all[|all| - 1]) {
      var n := FoldText(all[|all| - 1], ContentText(content), reasoning);
      if a.tail != [] {
        ReplaceTail(base, a, n);
        c := a.(tail := ReplaceLast(a.tail, n));
      } else {
        ReplaceCalling(base, a, n);
        c := a.(calling := Some(n));
      }
    } else if a.calling.Some? {
      AppendTail(base, a, m);
      c := a.(tail := a.tail + [m]);
    } else {
      AppendPlain(base, a, m);
      c := a.(plain := a.plain + [m]);
    }
  }

  /** Where a turn stands among the items of a request. */
  predicate SaidAt(p: Pass, lo: nat, said: seq<TranscriptItem>) {
    lo + |said| <= |p.items| && p.items[lo..lo + |said|] == said && AllSaid(said)
  }

  lemma {:induction false} SaidFits(b: Builder, p: Pass, lo: nat, said: seq<TranscriptItem>) returns (a: Added)
    requires lo + |said| <= |p.items| && SaidAt(p, lo, said)
    requires Sealed(b.messages) && b.lastAssistantText == PreviousAssistantText(p.items[..lo])
    ensures var c := AddRange(b, p, lo, lo + |said|);
            && c.messages == AddedTo(b.messages, a)
            && c.lastAssistantText == PreviousAssistantText(p.items[..lo + |said|])
    ensures Fits(a, CallIds(said), TextBehindCall(p.items[..lo], said), Splits(p.items[..lo], said))
    decreases |said|
  {
    hide Sealed, AddItem, AddRange, PreviousAssistantText, TextBehindCall, Splits, CallIds, Fits, AddedTo, SaidAt,
      IsSaid;
    var before := p.items[..lo];
    if said == [] {
      a := Added([], None, []);
      NothingSaid(b, p, lo);
    } else {
      var n := |said| - 1;
      var front, item := said[..n], said[n];
      FrontSaid(p, lo, said);
      RangeOneMore(b, p, lo, lo + |said|);
      var d := SaidFits(b, p, lo, front);
      var c := AddRange(b, p, lo, lo + n);
      a := ItemFits(b.messages, d, before, front, c, item, Lookup(p.anchors, lo + n), p.handling);
      LastTextFollows(c, p, lo + n);
      assert front + [item] == said;
    }
  }

  lemma LastTextFollows(c: Builder, p: Pass, k: nat)
    requires k < |p.items| && c.lastAssistantText == PreviousAssistantText(p.items[..k])
    ensures AddItem(c, p.items[k], Lookup(p.anchors, k),
                    p.handling).lastAssistantText == PreviousAssistantText(p.items[..k + 1])
  {
    hide AddItem, PreviousAssistantText;
    AddedItem(c, p.items[..k], p.items[k], Lookup(p.anchors, k), p.handling);
    assert p.items[..k] + [p.items[k]] == p.items[..k + 1];
  }

  lemma RangeOneMore(b: Builder, p: Pass, lo: nat, hi: nat)
    requires lo < hi <= |p.items|
    ensures AddRange(b, p, lo, hi)
         == AddItem(AddRange(b, p, lo, hi - 1), p.items[hi - 1], Lookup(p.anchors, hi - 1), p.handling)
  {
    hide AddItem;
  }

  lemma NothingSaid(b: Builder, p: Pass, lo: nat)
    requires lo <= |p.items|
    ensures AddRange(b, p, lo, lo) == b
    ensures AddedTo(b.messages, Added([], None, [])) == b.messages
    ensures var before := p.items[..lo];
            Fits(Added([], None, []), CallIds([]), TextBehindCall(before, []), Splits(before, []))
  {
  }

  lemma FrontSaid(p: Pass, lo: nat, said: seq<TranscriptItem>)
    requires said != [] && SaidAt(p, lo, said)
    ensures var n := |said| - 1;
            && SaidAt(p, lo, said[..n]) && p.items[lo + n] == said[n] && IsSaid(said[n])
            && p.items[..lo] + said[..n] == p.items[..lo + n]
  {
    hide IsSaid;
    var n := |said| - 1;
    assert p.items[lo..lo + n] == p.items[lo..lo + |said|][..n];
    assert p.items[lo + n] == p.items[lo..lo + |said|][n];
  }

  /** One more item of a turn. */
  lemma ItemFits(base: seq<WireMessage>, a: Added, before: seq<TranscriptItem>, said: seq<TranscriptItem>, b: Builder,
                 item: TranscriptItem, reasoning: Option<string>, handling: DeveloperRoleHandling)
    returns (c: Added)
    requires Sealed(base) && IsSaid(item) && b.messages == AddedTo(base, a)
    requires b.lastAssistantText == PreviousAssistantText(before + said)
    requires Fits(a, CallIds(said), TextBehindCall(before, said), Splits(before, said))
    ensures AddItem(b, item, reasoning, handling).messages == AddedTo(base, c)
    ensures var more := said + [item];
            Fits(c, CallIds(more), TextBehindCall(before, more), Splits(before, more))
  {
    hide Sealed, PreviousAssistantText, TextBehindCall, Splits, CallIds, Fits, AddedTo, HasImage, ContentText,
      AddAssistant,
      PushToolCall;
    OneMoreSaid(before, said, item);
    TextNeedsCall(before, said);
    assert CallIds(said) + [] == CallIds(said);
    c := a;
    var ids, text, split := CallIds(said), TextBehindCall(before, said), Splits(before, said);
    if item.ToolCall? {
      c := CallFits(base, a, ids, text, split, CallOf(item), reasoning);
    } else if item.Message? {
      if b.lastAssistantText != Some(ContentText(item.content)) {
        c := TextFits(base, a, ids, text, split, b, item.content, reasoning);
      } else {
        RepeatedText(b, item.content, reasoning);
      }
    }
  }

  lemma RepeatedText(b: Builder, content: seq<ContentItem>, reasoning: Option<string>)
    requires b.lastAssistantText == Some(ContentText(content))
    ensures AddAssistant(b, content, reasoning) == b
  {
  }

  // ---------------------------------------------------------------------------
  // The results behind it

  lemma {:induction false} ResultsAppend(b: Builder, p: Pass, lo: nat, hi: nat) returns (added: seq<WireMessage>)
    requires lo <= hi <= |p.items|
    requires forall i :: lo <= i < hi ==> p.items[i].ToolResult?
    ensures AddRange(b, p, lo, hi).messages == b.messages + added
    ensures |added| == hi - lo
    ensures forall i :: 0 <= i < hi - lo ==> added[i] == ResultMessage(p.items[lo + i])
    decreases hi - lo
  {
    if lo == hi {
      added := [];
      assert b.messages + [] == b.messages;
    } else {
      hide ResultContent;
      var before := ResultsAppend(b, p, lo, hi - 1);
      added := before + [ResultMessage(p.items[hi - 1])];
      Associative(b.messages, before, [ResultMessage(p.items[hi - 1])]);
    }
  }

  lemma {:induction false} PlainAreAdjacent(messages: seq<WireMessage>)
    requires AllPlain(messages)
    ensures Adjacent(messages)
  {
    if messages != [] {
      var n := |messages| - 1;
      PlainAreAdjacent(messages[..n]);
      AdjacentOne(messages[n]);
      AdjacentAppend(messages[..n], [messages[n]]);
      assert messages == messages[..n] + [messages[n]];
    }
  }

  /** The answers stand behind the message with their calls. */
  lemma AnsweredCalls(m: WireMessage, ids: seq<string>, answers: seq<WireMessage>)
    requires CallsIds(m, ids) && AnswersIds(answers, ids) && ids != []
    ensures Adjacent([m] + answers) && Sealed([m] + answers)
  {
    var all := [m] + answers;
    assert forall i :: 0 <= i < |ids| ==> all[i + 1] == answers[i];
    assert all[|ids| + 1..] == [];
    assert FirstAnswered(all, |ids|);
  }

  predicate AnswersIds(answers: seq<WireMessage>, ids: seq<string>) {
    |answers| == |ids| && forall i :: 0 <= i < |ids| ==> IsTool(answers[i]) && answers[i].toolCallId == Some(ids[i])
  }

  /** A turn that does not split leaves the messages settled. */
  lemma TogetherSettles(base: seq<WireMessage>, a: Added, ids: seq<string>, text: bool, answers: seq<WireMessage>)
    requires Settled(base) && Fits(a, ids, text, false) && AnswersIds(answers, ids)
    ensures Settled(AddedTo(base, a) + answers)
  {
    hide Adjacent, IsPlain, CallsIds;
    PlainAreAdjacent(a.plain);
    if ids == [] {
      assert AddedTo(base, a) + answers == base + a.plain;
      PlainIsSealed(base, a.plain);
      SettledAppend(base, a.plain);
    } else {
      var m := a.calling.value;
      AnsweredCalls(m, ids, answers);
      AdjacentAppend(a.plain, [m] + answers);
      assert AddedTo(base, a) + answers == base + (a.plain + ([m] + answers));
      SettledAppend(base, a.plain + ([m] + answers));
    }
  }

  lemma PlainIsSealed(base: seq<WireMessage>, plain: seq<WireMessage>)
    requires Sealed(base) && AllPlain(plain)
    ensures Sealed(base + plain)
  {
    if plain == [] {
      assert base + plain == base;
    } else {
      assert IsPlain(plain[|plain| - 1]);
    }
  }

  // ---------------------------------------------------------------------------
  // A message with calls that is not answered

  /** At `k` stands a message with calls, and behind it another assistant message. */
  predicate BrokenAt(messages: seq<WireMessage>, k: nat) {
    && k + 1 < |messages| && Adjacent(messages[..k])
    && OrEmpty(messages[k].toolCalls) != [] && messages[k + 1].role == ASSISTANT
  }

  lemma BrokenIsNotAdjacent(messages: seq<WireMessage>, k: nat)
    requires BrokenAt(messages, k)
    ensures !Adjacent(messages)
  {
    var rest := messages[k..];
    assert messages == messages[..k] + rest;
    UnansweredFirst(rest);
    if Adjacent(messages) {
      AdjacentRest(messages[..k], rest);
    }
  }

  lemma UnansweredFirst(messages: seq<WireMessage>)
    requires 1 < |messages| && OrEmpty(messages[0].toolCalls) != [] && messages[1].role == ASSISTANT
    ensures !Adjacent(messages)
  {
    var n := |OrEmpty(messages[0].toolCalls)|;
    if n < |messages| {
      assert !Answers(messages[0].toolCalls.value[0], messages[1]);
    }
  }

  lemma SplitBreaks(base: seq<WireMessage>, a: Added, ids: seq<string>, text: bool) returns (k: nat)
    requires Settled(base) && Fits(a, ids, text, true)
    ensures BrokenAt(AddedTo(base, a), k)
  {
    hide Adjacent, IsPlain, CallsIds;
    PlainAreAdjacent(a.plain);
    AdjacentAppend(base, a.plain);
    k := |base| + |a.plain|;
    assert AddedTo(base, a)[..k] == base + a.plain;
  }

  /** Nothing that follows repairs it: a step changes no message but the last, and not its role. */
  lemma ItemKeepsBroken(b: Builder, k: nat, item: TranscriptItem, reasoning: Option<string>,
                        handling: DeveloperRoleHandling)
    requires BrokenAt(b.messages, k)
    ensures BrokenAt(AddItem(b, item, reasoning, handling).messages, k)
  {
    hide Adjacent, MergeReasoning, ContentText, HasImage, OtherMessage, ResultContent, WireRole;
    var c := AddItem(b, item, reasoning, handling);
    var n := |b.messages| - 1;
    assert c.messages[..n] == b.messages[..n] && c.messages[n].role == b.messages[n].role;
    assert c.messages[..k] == c.messages[..n][..k] && b.messages[..k] == b.messages[..n][..k];
  }

  lemma {:induction false} RangeKeepsBroken(b: Builder, k: nat, p: Pass, lo: nat, hi: nat)
    requires lo <= hi <= |p.items| && BrokenAt(b.messages, k)
    ensures BrokenAt(AddRange(b, p, lo, hi).messages, k)
    decreases hi - lo
  {
    hide BrokenAt, AddItem;
    if lo < hi {
      RangeKeepsBroken(b, k, p, lo, hi - 1);
      ItemKeepsBroken(AddRange(b, p, lo, hi - 1), k, p.items[hi - 1], Lookup(p.anchors, hi - 1), p.handling);
    }
  }

  // ---------------------------------------------------------------------------
  // Whole transcripts

  /** Where the parts of a turn stand. */
  lemma TurnIsAt(p: Pass, lo: nat, turn: Segment)
    requires turn.Turn? && WellFormed(turn) && lo <= |p.items| && p.items[lo..] == SegmentItems(turn)
    ensures var mid := lo + |turn.said|;
            && SaidAt(p, lo, turn.said) && |p.items| == mid + |turn.results|
            && forall i :: mid <= i < |p.items| ==> p.items[i] == turn.results[i - mid]
  {
    hide AllSaid, ResultsAnswer, CallIds;
    PartsBehind(p.items, lo, turn.said, turn.results);
  }

  /** A turn behind settled messages settles them, or breaks them if it splits. */
  lemma TurnAppends(b: Builder, p: Pass, lo: nat, turn: Segment) returns (k: nat)
    requires turn.Turn? && WellFormed(turn) && Answered(turn)
    requires lo <= |p.items| && p.items[lo..] == SegmentItems(turn)
    requires Settled(b.messages) && b.lastAssistantText == PreviousAssistantText(p.items[..lo])
    ensures var c := AddRange(b, p, lo, |p.items|);
            if Splits(p.items[..lo], turn.said) then BrokenAt(c.messages, k) else Settled(c.messages)
  {
    hide Adjacent, AddRange, Fits, AddedTo, CallIds, Splits, TextBehindCall, PreviousAssistantText, ResultContent,
      BrokenAt,
      IsSaid, Sealed;
    TurnIsAt(p, lo, turn);
    var mid := lo + |turn.said|;
    SettledIsSealed(b.messages);
    var a := SaidFits(b, p, lo, turn.said);
    var c := AddRange(b, p, lo, mid);
    RangeSplit(b, p, lo, mid, |p.items|);
    k := 0;
    if Splits(p.items[..lo], turn.said) {
      k := SplitBreaks(b.messages, a, CallIds(turn.said), TextBehindCall(p.items[..lo], turn.said));
      RangeKeepsBroken(c, k, p, mid, |p.items|);
    } else {
      var answers := ResultsAppend(c, p, mid, |p.items|);
      AnswersAll(turn.results, CallIds(turn.said));
      TogetherSettles(b.messages, a, CallIds(turn.said), TextBehindCall(p.items[..lo], turn.said), answers);
    }
  }

  lemma AnswersAll(results: seq<TranscriptItem>, ids: seq<string>)
    requires ResultsAnswerFirst(results, ids) && |results| == |ids|
    ensures ResultsAnswer(results, ids)
  {
  }

  lemma SettledIsSealed(messages: seq<WireMessage>)
    requires Settled(messages)
    ensures Sealed(messages)
  {
  }

  /** No turn keeps a text between two of its calls. */
  predicate NoneSplits(segments: seq<Segment>) {
    segments != [] ==>
      var n := |segments| - 1;
      NoneSplits(segments[..n]) && (segments[n].Turn? ==> !Splits(ItemsOf(segments[..n]), segments[n].said))
  }

  predicate AllWellFormed(segments: seq<Segment>) {
    forall i :: 0 <= i < |segments| ==> WellFormed(segments[i])
  }

  predicate AllAnswered(segments: seq<Segment>) {
    forall i :: 0 <= i < |segments| ==> Answered(segments[i])
  }

  /** What a segment does behind settled messages. */
  lemma SegmentAppends(b: Builder, p: Pass, lo: nat, s: Segment) returns (k: nat)
    requires WellFormed(s) && Answered(s) && lo <= |p.items| && p.items[lo..] == SegmentItems(s)
    requires Settled(b.messages) && b.lastAssistantText == PreviousAssistantText(p.items[..lo])
    ensures var c := AddRange(b, p, lo, |p.items|);
            if s.Turn? && Splits(p.items[..lo], s.said) then BrokenAt(c.messages, k) else Settled(c.messages)
  {
    hide Settled, AddRange, Splits, PreviousAssistantText, BrokenAt, CallIds;
    k := 0;
    if s.Turn? {
      k := TurnAppends(b, p, lo, s);
    } else {
      assert forall i :: lo <= i < |p.items| ==> p.items[i] == p.items[lo..][i - lo];
      InputsSettle(b, p, lo, |p.items|);
    }
  }

  lemma {:induction false} SegmentsSettle(b: Builder, segments: seq<Segment>, anchors: map<nat, string>,
                                          handling: DeveloperRoleHandling)
    returns (k: nat)
    requires Settled(b.messages) && b.lastAssistantText.None? && AllWellFormed(segments) && AllAnswered(segments)
    ensures var items := ItemsOf(segments);
            var c := AddRange(b, Pass(items, anchors, handling), 0, |items|);
            if NoneSplits(segments) then Settled(c.messages) else BrokenAt(c.messages, k)
  {
    hide Settled, WellFormed, SegmentItems, BrokenAt, Splits, AddRange, PreviousAssistantText, Answered;
    k := 0;
    if segments == [] {
      NoRange(b, Pass([], anchors, handling));
    } else {
      var n := |segments| - 1;
      var before, last := ItemsOf(segments[..n]), SegmentItems(segments[n]);
      k := SegmentsSettle(b, segments[..n], anchors, handling);
      var p := Pass(before, anchors, handling);
      var q := p.(items := before + last);
      RangeOfPrefix(b, p, last, |before|);
      RangeSplit(b, q, 0, |before|, |before + last|);
      var c := AddRange(b, q, 0, |before|);
      if NoneSplits(segments[..n]) {
        RangeIsAll(b, q, |before|);
        AddedItems(b, q.items, |before|, anchors, handling);
        assert q.items[..|before|] == before && q.items[|before|..] == last;
        k := SegmentAppends(c, q, |before|, segments[n]);
      } else {
        RangeKeepsBroken(c, k, q, |before|, |q.items|);
      }
    }
  }

  lemma NoRange(b: Builder, p: Pass)
    ensures AddRange(b, p, 0, 0) == b
  {
  }

  // ---------------------------------------------------------------------------
  // Calls without an answer

  /** The calls of a message, or the one answer that a tool message gives. */
  function MessageOwes(m: WireMessage): int {
    if IsTool(m) then -1 else |OrEmpty(m.toolCalls)|
  }

  /** How many more calls than answers there are. */
  function Owed(messages: seq<WireMessage>): int {
    if messages == [] then 0 else Owed(messages[..|messages| - 1]) + MessageOwes(messages[|messages| - 1])
  }

  function ItemOwes(item: TranscriptItem): int {
    if item.ToolCall? then 1 else if item.ToolResult? then -1 else 0
  }

  function OwedBy(items: seq<TranscriptItem>): int {
    if items == [] then 0 else OwedBy(items[..|items| - 1]) + ItemOwes(items[|items| - 1])
  }

  lemma {:induction false} OwedAppend(a: seq<WireMessage>, b: seq<WireMessage>)
    ensures Owed(a + b) == Owed(a) + Owed(b)
  {
    if b == [] {
      assert a + b == a;
    } else {
      hide MessageOwes;
      assert (a + b)[..|a + b| - 1] == a + b[..|b| - 1];
      OwedAppend(a, b[..|b| - 1]);
    }
  }

  lemma OwedOneMore(messages: seq<WireMessage>, m: WireMessage)
    ensures Owed(Append(messages, m)) == Owed(messages) + MessageOwes(m)
  {
    assert Append(messages, m)[..|messages|] == messages;
  }

  lemma {:induction false} AnswersOwe(answers: seq<WireMessage>)
    requires forall i :: 0 <= i < |answers| ==> IsTool(answers[i])
    ensures Owed(answers) == -|answers|
  {
    if answers != [] {
      AnswersOwe(answers[..|answers| - 1]);
    }
  }

  /** Adjacent messages answer as many calls as they make. */
  lemma {:induction false} AdjacentOwesNothing(messages: seq<WireMessage>)
    requires Adjacent(messages)
    ensures Owed(messages) == 0
  {
    if messages != [] {
      hide MessageOwes, Owed, Adjacent;
      AdjacentBehind(messages);
      var n := |OrEmpty(messages[0].toolCalls)|;
      FirstOwesNothing(messages, n);
      AdjacentOwesNothing(messages[n + 1..]);
      OwedAppend(messages[..n + 1], messages[n + 1..]);
      assert messages == messages[..n + 1] + messages[n + 1..];
    }
  }

  lemma FirstOwesNothing(messages: seq<WireMessage>, n: nat)
    requires Adjacent(messages) && n < |messages| && n == |OrEmpty(messages[0].toolCalls)|
    ensures Owed(messages[..n + 1]) == 0
  {
    var answers := messages[1..n + 1];
    assert FirstAnswered(messages, n);
    forall i | 0 <= i < n
      ensures IsTool(answers[i])
    {
      assert Answers(messages[0].toolCalls.value[i], messages[i + 1]);
    }
    hide Adjacent, Owed, OwedBy;
    AnswersOwe(answers);
    assert messages[..n + 1] == [messages[0]] + answers;
    OwedAppend([messages[0]], answers);
    assert Append([], messages[0]) == [messages[0]];
    OwedOneMore([], messages[0]);
    NothingOwed();
  }

  lemma NothingOwed()
    ensures Owed([]) == 0 && OwedBy([]) == 0
  {
  }

  /** No message of a role for tools. */
  predicate NotATool(item: TranscriptItem) {
    item.Message? ==> IsUser(item) || IsAssistant(item)
  }

  lemma ItemIsOwed(b: Builder, item: TranscriptItem, reasoning: Option<string>, handling: DeveloperRoleHandling)
    requires NotATool(item)
    ensures Owed(AddItem(b, item, reasoning, handling).messages) == Owed(b.messages) + ItemOwes(item)
  {
    hide ContentText, HasImage, ContentWireParts, ResultContent, Owed, PushToolCall, AddAssistant;
    match item
    case Message(_, role, content, _) =>
      if WireRole(role, handling) == ASSISTANT {
        AssistantIsOwed(b, content, reasoning);
      } else {
        OwedOneMore(b.messages, OtherMessage(WireRole(role, handling), content));
      }
    case ToolCall(_, _, _, _) => CallIsOwed(b.messages, CallOf(item), reasoning);
    case ToolResult(_, _, _) => OwedOneMore(b.messages, ResultMessage(item));
    case _ =>
  }

  lemma OwedReplaceLast(messages: seq<WireMessage>, m: WireMessage)
    requires messages != []
    ensures Owed(ReplaceLast(messages, m))
         == Owed(messages) - MessageOwes(messages[|messages| - 1]) + MessageOwes(m)
  {
    hide MessageOwes;
    assert ReplaceLast(messages, m)[..|messages| - 1] == messages[..|messages| - 1];
  }

  lemma CallIsOwed(messages: seq<WireMessage>, call: WireCall, reasoning: Option<string>)
    ensures Owed(PushToolCall(messages, call, reasoning)) == Owed(messages) + 1
  {
    hide MergeReasoning, Owed;
    if TakesCalls(messages) {
      var m := messages[|messages| - 1];
      var calls := Some(m.toolCalls.value + [call]);
      OwedReplaceLast(messages, m.(toolCalls := calls, reasoning := MergeReasoning(m.reasoning, reasoning)));
    } else {
      OwedOneMore(messages, WireMessage(ASSISTANT, NullContent, Some([call]), None, reasoning));
    }
  }

  lemma AssistantIsOwed(b: Builder, content: seq<ContentItem>, reasoning: Option<string>)
    ensures Owed(AddAssistant(b, content, reasoning).messages) == Owed(b.messages)
  {
    hide MergeReasoning, ContentText, HasImage, Owed;
    var text, n := ContentText(content), |b.messages|;
    if n > 0 && HoldsCalls(b.messages[n - 1]) {
      OwedReplaceLast(b.messages, FoldText(b.messages[n - 1], text, reasoning));
    }
    OwedOneMore(b.messages, PlainMessage(ASSISTANT, TextContent(text), reasoning));
  }

  lemma {:induction false} ItemsAreOwed(b: Builder, items: seq<TranscriptItem>, n: nat, anchors: map<nat, string>,
                                        handling: DeveloperRoleHandling)
    requires n <= |items| && forall i :: 0 <= i < n ==> NotATool(items[i])
    ensures Owed(AddItems(b, items, n, anchors, handling).messages) == Owed(b.messages) + OwedBy(items[..n])
  {
    hide AddItem, NotATool, Owed, ItemOwes;
    if n > 0 {
      ItemsAreOwed(b, items, n - 1, anchors, handling);
      ItemIsOwed(AddItems(b, items, n - 1, anchors, handling), items[n - 1], Lookup(anchors, n - 1), handling);
      assert items[..n][..n - 1] == items[..n - 1];
    }
  }

  lemma {:induction false} OwedByAppend(a: seq<TranscriptItem>, b: seq<TranscriptItem>)
    ensures OwedBy(a + b) == OwedBy(a) + OwedBy(b)
  {
    if b == [] {
      assert a + b == a;
    } else {
      hide ItemOwes;
      assert (a + b)[..|a + b| - 1] == a + b[..|b| - 1];
      OwedByAppend(a, b[..|b| - 1]);
    }
  }

  lemma {:induction false} InputsOwe(inputs: seq<TranscriptItem>)
    requires forall i :: 0 <= i < |inputs| ==> IsUser(inputs[i])
    ensures OwedBy(inputs) == 0
  {
    if inputs != [] {
      InputsOwe(inputs[..|inputs| - 1]);
    }
  }

  lemma {:induction false} SaidOwes(said: seq<TranscriptItem>)
    requires AllSaid(said)
    ensures OwedBy(said) == |CallIds(said)|
  {
    if said != [] {
      hide IsTextMessage;
      var n := |said| - 1;
      SaidOwes(said[..n]);
      assert IsSaid(said[n]);
    }
  }

  lemma {:induction false} ResultsOwe(results: seq<TranscriptItem>)
    requires forall i :: 0 <= i < |results| ==> results[i].ToolResult?
    ensures OwedBy(results) == -|results|
  {
    if results != [] {
      ResultsOwe(results[..|results| - 1]);
    }
  }

  /** A segment owes the answers it has not given, and holds nothing else for tools. */
  lemma SegmentOwes(s: Segment)
    requires WellFormed(s)
    ensures 0 <= OwedBy(SegmentItems(s)) && (OwedBy(SegmentItems(s)) == 0 <==> Answered(s))
    ensures forall i :: 0 <= i < |SegmentItems(s)| ==> NotATool(SegmentItems(s)[i])
  {
    hide OwedBy, CallIds, HasImage;
    if s.Turn? {
      SaidOwes(s.said);
      ResultsOwe(s.results);
      OwedByAppend(s.said, s.results);
      assert forall i :: 0 <= i < |s.said| ==> IsSaid(s.said[i]);
    } else {
      InputsOwe(s.inputs);
    }
  }

  lemma {:induction false} SegmentsOwe(segments: seq<Segment>)
    requires AllWellFormed(segments)
    ensures var items := ItemsOf(segments);
            && 0 <= OwedBy(items) && (OwedBy(items) == 0 <==> AllAnswered(segments))
            && forall i :: 0 <= i < |items| ==> NotATool(items[i])
  {
    hide WellFormed, SegmentItems, Answered, NotATool, OwedBy;
    if segments == [] {
      NothingOwed();
    } else {
      var n := |segments| - 1;
      SegmentsOwe(segments[..n]);
      SegmentOwes(segments[n]);
      OwedByAppend(ItemsOf(segments[..n]), SegmentItems(segments[n]));
      assert AllAnswered(segments) <==> AllAnswered(segments[..n]) && Answered(segments[n]);
    }
  }

  /** An adjacent request has answered everything. */
  lemma AdjacentIsAnswered(instructions: string, segments: seq<Segment>, anchors: map<nat, string>,
                           handling: DeveloperRoleHandling)
    requires AllWellFormed(segments)
    requires var items := ItemsOf(segments);
             Adjacent(AddItems(Builder([SystemMessage(instructions)], None), items, |items|, anchors,
                               handling).messages)
    ensures AllAnswered(segments)
  {
    hide AddItems, AllWellFormed, ItemsOf, Adjacent, AllAnswered, NotATool, Owed, OwedBy;
    var b := Builder([SystemMessage(instructions)], None);
    var items := ItemsOf(segments);
    SegmentsOwe(segments);
    ItemsAreOwed(b, items, |items|, anchors, handling);
    assert items[..|items|] == items;
    AdjacentOwesNothing(AddItems(b, items, |items|, anchors, handling).messages);
    NothingOwed();
    OwedOneMore([], SystemMessage(instructions));
    assert Append([], SystemMessage(instructions)) == [SystemMessage(instructions)];
  }

  /** The request built from user inputs and turns: behind the system message, every message with
      calls is followed immediately by exactly its tool messages, in order, if and only if no turn
      keeps an assistant text between two of its calls and every turn has answered all its calls. */
  lemma RequestIsAdjacentIff(instructions: string, segments: seq<Segment>, anchors: map<nat, string>,
                             handling: DeveloperRoleHandling)
    requires AllWellFormed(segments)
    ensures var items := ItemsOf(segments);
            var messages := AddItems(Builder([SystemMessage(instructions)], None), items, |items|, anchors,
                                     handling).messages;
            && messages != [] && messages[0].role == "system"
            && (Adjacent(messages) <==> NoneSplits(segments) && AllAnswered(segments))
  {
    hide AddItems, AddRange, AllWellFormed, ItemsOf, Adjacent, NoneSplits, AllAnswered;
    var b := Builder([SystemMessage(instructions)], None);
    var p := Pass(ItemsOf(segments), anchors, handling);
    StartIsSettled(instructions);
    RangeIsAll(b, p, |p.items|);
    SystemStays(b, p, |p.items|);
    if AllAnswered(segments) {
      var k := SegmentsSettle(b, segments, anchors, handling);
      if !NoneSplits(segments) {
        BrokenIsNotAdjacent(AddRange(b, p, 0, |p.items|).messages, k);
      }
    } else if Adjacent(AddItems(b, p.items, |p.items|, anchors, handling).messages) {
      AdjacentIsAnswered(instructions, segments, anchors, handling);
    }
  }

  lemma StartIsSettled(instructions: string)
    ensures Settled([SystemMessage(instructions)])
  {
    AdjacentOne(SystemMessage(instructions));
  }

  /** The first message stays the system message. */
  lemma {:induction false} SystemStays(b: Builder, p: Pass, hi: nat)
    requires hi <= |p.items| && b.messages != [] && b.messages[0].role == "system"
    ensures var messages := AddRange(b, p, 0, hi).messages;
            messages != [] && messages[0].role == "system"
  {
    hide MergeReasoning, ContentText, HasImage, OtherMessage, ResultContent, WireRole;
    if hi > 0 {
      SystemStays(b, p, hi - 1);
    }
  }

  /** A turn that says a call, a text and a call is not adjacent, whatever its texts and ids are. */
  lemma TextBetweenCallsBreaks(instructions: string, said: seq<TranscriptItem>, results: seq<TranscriptItem>,
                               anchors: map<nat, string>, handling: DeveloperRoleHandling)
    requires |said| == 3 && IsJsonCall(said[0]) && IsTextMessage(said[1]) && IsJsonCall(said[2])
    requires ResultsAnswerFirst(results, CallIds(said))
    ensures var items := said + results;
            !Adjacent(AddItems(Builder([SystemMessage(instructions)], None), items, |items|, anchors,
                               handling).messages)
  {
    hide Splits, HasImage, Adjacent, AddItems, ContentText;
    KeptBehindCall(said[0], said[1]);
    assert [] + said[..1] == [said[0]];
    SplitIsFound([], said, 0, 1, 2);
    var segments := [Turn(said, results)];
    assert segments[..0] == [] && ItemsOf([]) == [];
    assert ItemsOf(segments) == [] + (said + results) == said + results;
    RequestIsAdjacentIff(instructions, segments, anchors, handling);
  }

  lemma KeptBehindCall(call: TranscriptItem, message: TranscriptItem)
    requires call.ToolCall? && IsAssistant(message)
    ensures IsKept([call], message)
  {
    assert [call][..0] == [];
  }

  /** No message stands between two calls. */
  predicate Apart(said: seq<TranscriptItem>) {
    forall i, j, k :: 0 <= i < j < k < |said| && said[i].ToolCall? && said[k].ToolCall? ==> !said[j].Message?
  }

  lemma ApartNeverSplits(before: seq<TranscriptItem>, said: seq<TranscriptItem>)
    requires Apart(said)
    ensures !Splits(before, said)
  {
    if Splits(before, said) {
      var i, j, k := SplitIsThere(before, said);
    }
  }
}
