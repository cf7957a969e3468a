/** Where the anchored reasoning goes: every anchored text is carried by exactly one message, in
    transcript order, unless its own message is a dropped repetition
    (src/llm/src/api/requests/chat.rs:213-276, 372-408). */
module RequestReasoning {
  import opened Basics
  import opened Transcript
  import opened ChatRequest
  import opened RequestMeaning

  /** The reasoning field of a message that carries these texts: one line for each. */
  function Lines(texts: seq<string>): Option<string> {
    if texts == [] then None
    else
      var front, last := OrEmpty(Lines(texts[..|texts| - 1])), texts[|texts| - 1];
      Some(if front == [] then last else front + "\n" + last)
  }

  /** Which texts each message carries. */
  ghost predicate Carry(messages: seq<WireMessage>, groups: seq<seq<string>>) {
    |groups| == |messages| && forall i :: 0 <= i < |messages| ==> messages[i].reasoning == Lines(groups[i])
  }

  /** Tool calls carry reasoning, and so do assistant messages that are not dropped. */
  predicate TakesReasoning(before: seq<TranscriptItem>, item: TranscriptItem) {
    item.ToolCall? || (IsAssistant(item) && PreviousAssistantText(before) != Some(ContentText(item.content)))
  }

  function Carried(items: seq<TranscriptItem>, n: nat, anchors: map<nat, string>): seq<string>
    requires n <= |items|
  {
    if n == 0 then []
    else
      Carried(items, n - 1, anchors)
      + if n - 1 in anchors && TakesReasoning(items[..n - 1], items[n - 1]) then [anchors[n - 1]] else []
  }

  function Texts(reasoning: Option<string>): seq<string> {
    if reasoning.Some? then [reasoning.value] else []
  }

  lemma LinesOfTexts(reasoning: Option<string>)
    ensures Lines(Texts(reasoning)) == reasoning
  {
  }

  lemma LinesMerge(texts: seq<string>, reasoning: Option<string>)
    ensures Lines(texts + Texts(reasoning)) == MergeReasoning(Lines(texts), reasoning)
  {
    if reasoning.Some? {
      assert (texts + [reasoning.value])[..|texts|] == texts;
    } else {
      assert texts + [] == texts;
    }
  }

  lemma AppendedCarries(messages: seq<WireMessage>, groups: seq<seq<string>>, m: WireMessage)
    returns (after: seq<seq<string>>)
    requires Carry(messages, groups)
    ensures Carry(Append(messages, m), after) && Flatten(after) == Flatten(groups) + Texts(m.reasoning)
  {
    hide Lines, Flatten;
    LinesOfTexts(m.reasoning);
    after := groups + [Texts(m.reasoning)];
    FlattenPush(groups, Texts(m.reasoning));
  }

  lemma ReplacedCarries(messages: seq<WireMessage>, groups: seq<seq<string>>, m: WireMessage, reasoning: Option<string>)
    returns (after: seq<seq<string>>)
    requires Carry(messages, groups) && messages != []
    requires m.reasoning == MergeReasoning(messages[|messages| - 1].reasoning, reasoning)
    ensures Carry(ReplaceLast(messages, m), after) && Flatten(after) == Flatten(groups) + Texts(reasoning)
  {
    hide Lines, Flatten, MergeReasoning;
    var n := |messages| - 1;
    var last := groups[n];
    LinesMerge(last, reasoning);
    after := groups[..n] + [last + Texts(reasoning)];
    FlattenPush(groups[..n], last + Texts(reasoning));
    FlattenPush(groups[..n], last);
    assert groups[..n] + [last] == groups;
    Associative(Flatten(groups[..n]), last, Texts(reasoning));
  }

  lemma ItemCarries(b: Builder, groups: seq<seq<string>>, before: seq<TranscriptItem>, item: TranscriptItem,
                    reasoning: Option<string>, handling: DeveloperRoleHandling)
    returns (after: seq<seq<string>>)
    requires Carry(b.messages, groups) && b.lastAssistantText == PreviousAssistantText(before)
    ensures Carry(AddItem(b, item, reasoning, handling).messages, after)
    ensures Flatten(after) == Flatten(groups) + if TakesReasoning(before, item) then Texts(reasoning) else []
  {
    hide Carry, Flatten, PreviousAssistantText, ContentText, HasImage, MergeReasoning, OtherMessage, ResultContent;
    after := groups;
    assert Flatten(groups) + [] == Flatten(groups);
    match item
    case Message(_, role, content, _) =>
      RolesStayApart(role, handling);
      if role != ASSISTANT {
        NoReasoning(role, content, handling);
        after := AppendedCarries(b.messages, groups, OtherMessage(WireRole(role, handling), content));
      } else if b.lastAssistantText != Some(ContentText(content)) {
        after := AssistantCarries(b, groups, content, reasoning);
      }
    case ToolCall(_, _, _, _) =>
      after := CallCarries(b.messages, groups, CallOf(item), reasoning);
    case ToolResult(_, _, _) =>
      after := AppendedCarries(b.messages, groups, ResultMessage(item));
    case _ =>
  }

  lemma NoReasoning(role: string, content: seq<ContentItem>, handling: DeveloperRoleHandling)
    ensures OtherMessage(WireRole(role, handling), content).reasoning == None
  {
  }

  lemma AssistantCarries(b: Builder, groups: seq<seq<string>>, content: seq<ContentItem>, reasoning: Option<string>)
    returns (after: seq<seq<string>>)
    requires Carry(b.messages, groups) && b.lastAssistantText != Some(ContentText(content))
    ensures Carry(AddAssistant(b, content, reasoning).messages, after)
    ensures Flatten(after) == Flatten(groups) + Texts(reasoning)
  {
    hide Carry, Flatten, ContentText, HasImage, MergeReasoning;
    var text := ContentText(content);
    var n := |b.messages|;
    if !HasImage(content) && n > 0 && HoldsCalls(b.messages[n - 1]) {
      after := ReplacedCarries(b.messages, groups, FoldText(b.messages[n - 1], text, reasoning), reasoning);
    } else {
      after := AppendedCarries(b.messages, groups, PlainMessage(ASSISTANT, TextContent(text), reasoning));
    }
  }

  lemma CallCarries(messages: seq<WireMessage>, groups: seq<seq<string>>, call: WireCall, reasoning: Option<string>)
    returns (after: seq<seq<string>>)
    requires Carry(messages, groups)
    ensures Carry(PushToolCall(messages, call, reasoning), after)
    ensures Flatten(after) == Flatten(groups) + Texts(reasoning)
  {
    hide Carry, Flatten, MergeReasoning;
    if TakesCalls(messages) {
      var m := messages[|messages| - 1];
      after := ReplacedCarries(messages, groups,
        m.(toolCalls := Some(m.toolCalls.value + [call]),
           reasoning := MergeReasoning(m.reasoning, reasoning)), reasoning);
    } else {
      after := AppendedCarries(messages, groups, WireMessage(ASSISTANT, NullContent, Some([call]), None, reasoning));
    }
  }

  lemma {:induction false} ItemsCarry(b: Builder, groups: seq<seq<string>>, items: seq<TranscriptItem>, n: nat,
                                      anchors: map<nat, string>, handling: DeveloperRoleHandling)
    returns (after: seq<seq<string>>)
    requires n <= |items| && b.lastAssistantText.None? && Carry(b.messages, groups)
    ensures Carry(AddItems(b, items, n, anchors, handling).messages, after)
    ensures Flatten(after) == Flatten(groups) + Carried(items, n, anchors)
  {
    hide AddItem, Carry, Flatten, TakesReasoning;
    if n == 0 {
      after := groups;
      assert Flatten(groups) + [] == Flatten(groups);
    } else {
      var before := ItemsCarry(b, groups, items, n - 1, anchors, handling);
      AddedItems(b, items, n - 1, anchors, handling);
      var c := AddItems(b, items, n - 1, anchors, handling);
      after := ItemCarries(c, before, items[..n - 1], items[n - 1], Lookup(anchors, n - 1), handling);
      Associative(Flatten(groups), Carried(items, n - 1, anchors),
                  if n - 1 in anchors && TakesReasoning(items[..n - 1], items[n - 1]) then [anchors[n - 1]] else []);
    }
  }

  /** For every transcript, the messages carry, in transcript order, exactly the anchored texts of
      the calls and of the assistant messages that do not repeat the assistant text before them. */
  lemma AnchoredReasoningIsCarried(instructions: string, items: seq<TranscriptItem>, anchors: map<nat, string>,
                                   handling: DeveloperRoleHandling)
    returns (groups: seq<seq<string>>)
    ensures Carry(AddItems(Builder([SystemMessage(instructions)], None), items, |items|, anchors, handling).messages,
                  groups)
    ensures Flatten(groups) == Carried(items, |items|, anchors)
  {
    hide AddItems, Carried;
    var none: seq<seq<string>> := [[]];
    assert Flatten(none) == [] + Flatten(none[1..]) == [];
    groups := ItemsCarry(Builder([SystemMessage(instructions)], None), none, items, |items|, anchors, handling);
    assert [] + Carried(items, |items|, anchors) == Carried(items, |items|, anchors);
  }
}
