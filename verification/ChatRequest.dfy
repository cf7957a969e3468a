/** From a transcript to the messages of a chat request: `ChatRequestBuilder::build`
    (src/llm/src/api/requests/chat.rs:73-408). */
module ChatRequest {
  import opened Basics
  import opened Transcript

  datatype WirePart = TextPart(text: string) | ImagePart(url: string)

  datatype WireContent = NullContent | TextContent(text: string) | PartsContent(parts: seq<WirePart>)

  datatype WireCall =
    | FunctionCall(id: string, name: string, arguments: string)
    | CustomCall(customId: Option<string>, name: string, input: string)

  datatype WireMessage = WireMessage(
    role: string, content: WireContent, toolCalls: Option<seq<WireCall>>,
    toolCallId: Option<string>, reasoning: Option<string>)

  datatype DeveloperRoleHandling = Preserve | DowngradeToSystem

  function PlainMessage(role: string, content: WireContent, reasoning: Option<string>): WireMessage {
    WireMessage(role, content, None, None, reasoning)
  }

  // ---------------------------------------------------------------------------
  // Which item a reasoning text is attached to

  function RoleEmitted(item: TranscriptItem): Option<string> {
    match item
    case Message(_, role, _, _) => Some(role)
    case ToolCall(_, _, _, _) => Some(ASSISTANT)
    case ToolResult(_, _, _) => Some("tool")
    case _ => None
  }

  function LastEmittedRole(items: seq<TranscriptItem>): Option<string> {
    if items == [] then None
    else
      var n := |items| - 1;
      if RoleEmitted(items[n]).Some? then RoleEmitted(items[n]) else LastEmittedRole(items[..n])
  }

  predicate IsUser(item: TranscriptItem) {
    item.Message? && item.role == "user"
  }

  function LastUserIndex(items: seq<TranscriptItem>): (r: Option<nat>)
    ensures r.Some? ==> r.value < |items| && IsUser(items[r.value])
    ensures forall i :: 0 <= i < |items| && IsUser(items[i]) ==> r.Some? && i <= r.value
  {
    if items == [] then None
    else
      var n := |items| - 1;
      if IsUser(items[n]) then Some(n) else LastUserIndex(items[..n])
  }

  function ReasoningJoined(content: seq<ReasoningContent>): string {
    if content == [] then []
    else ReasoningJoined(content[..|content| - 1]) + content[|content| - 1].text
  }

  /** The reasoning text of an item, if it is a reasoning item with text that is not blank. */
  function VisibleReasoning(item: TranscriptItem): Option<string> {
    if item.Reasoning? && item.reasoning.Some? && !IsBlank(ReasoningJoined(item.reasoning.value))
    then Some(ReasoningJoined(item.reasoning.value)) else None
  }

  predicate AfterLastUser(items: seq<TranscriptItem>, idx: nat) {
    var user := LastUserIndex(items);
    user.Some? ==> user.value < idx
  }

  /** Where the reasoning at `idx` is attached: to the assistant message before it, else to the
      tool call behind the assistant message after it, else to the item after it. */
  function AnchorOf(items: seq<TranscriptItem>, idx: nat): Option<nat>
    requires idx < |items|
  {
    if LastEmittedRole(items) == Some("user") || !AfterLastUser(items, idx) then None
    else if VisibleReasoning(items[idx]).None? then None
    else if idx > 0 && IsAssistant(items[idx - 1]) then Some(idx - 1)
    else if idx + 2 < |items| && IsAssistant(items[idx + 1]) && items[idx + 2].ToolCall? then Some(idx + 2)
    else if idx + 1 < |items| && (items[idx + 1].ToolCall? || IsAssistant(items[idx + 1])) then Some(idx + 1)
    else None
  }

  /** Reasoning is attached only to an assistant message or a tool call, behind the last user
      message, at most two positions away. */
  lemma AnchorsAreNear(items: seq<TranscriptItem>, idx: nat)
    requires idx < |items| && AnchorOf(items, idx).Some?
    ensures var k := AnchorOf(items, idx).value;
            && k < |items| && (IsAssistant(items[k]) || items[k].ToolCall?)
            && AfterLastUser(items, k)
            && k != idx && idx <= k + 1 && k <= idx + 2
    ensures VisibleReasoning(items[idx]).Some?
  {
  }

  /** Reasoning with a character that is not white space. */
  predicate HasThought(item: TranscriptItem) {
    item.Reasoning? && item.reasoning.Some? && !IsBlank(ThoughtIn(item.reasoning.value))
  }

  function ThoughtIn(content: seq<ReasoningContent>): string {
    if content == [] then []
    else
      (match content[0]
       case ReasoningText(text) => text
       case PlainText(text) => text) + ThoughtIn(content[1..])
  }

  lemma {:induction false} ThoughtsAgree(content: seq<ReasoningContent>)
    ensures ReasoningJoined(content) == ThoughtIn(content)
  {
    if content != [] {
      var n := |content| - 1;
      ThoughtsAgree(content[..n]);
      ThoughtSnoc(content[..n], content[n]);
      assert content[..n] + [content[n]] == content;
    }
  }

  lemma {:induction false} ThoughtSnoc(content: seq<ReasoningContent>, last: ReasoningContent)
    ensures ThoughtIn(content + [last]) == ThoughtIn(content) + last.text
  {
    if content == [] {
      assert content + [last] == [last] && [last][1..] == [];
    } else {
      assert (content + [last])[1..] == content[1..] + [last];
      ThoughtSnoc(content[1..], last);
    }
  }

  predicate NoUserFrom(items: seq<TranscriptItem>, idx: nat) {
    forall j :: idx <= j < |items| ==> !IsUser(items[j])
  }

  /** An assistant message directly before it. */
  predicate FollowsMessage(items: seq<TranscriptItem>, idx: nat)
    requires idx < |items|
  {
    idx > 0 && IsAssistant(items[idx - 1])
  }

  /** An assistant message or a call directly behind it. */
  predicate PrecedesAnchor(items: seq<TranscriptItem>, idx: nat)
    requires idx < |items|
  {
    idx + 1 < |items| && (IsAssistant(items[idx + 1]) || items[idx + 1].ToolCall?)
  }

  /** A reasoning item is attached exactly if it has a thought, no user message comes behind it, and
      an assistant message or a call stands next to it; and it is attached to the message before
      it, else to the call behind the message behind it, else to what stands behind it. */
  lemma AnchoredIff(items: seq<TranscriptItem>, idx: nat)
    requires idx < |items|
    ensures AnchorOf(items, idx).Some?
       <==> HasThought(items[idx]) && NoUserFrom(items, idx)
            && (FollowsMessage(items, idx) || PrecedesAnchor(items, idx))
    ensures AnchorOf(items, idx).Some? ==>
              && AnchorOf(items, idx).value
                 == (if FollowsMessage(items, idx) then idx - 1
                     else if idx + 2 < |items| && IsAssistant(items[idx + 1]) && items[idx + 2].ToolCall? then idx + 2
                     else idx + 1)
              && VisibleReasoning(items[idx]) == Some(ThoughtIn(items[idx].reasoning.value))
  {
    hide IsBlank, LastEmittedRole, LastUserIndex, ReasoningJoined, ThoughtIn;
    if items[idx].Reasoning? && items[idx].reasoning.Some? {
      ThoughtsAgree(items[idx].reasoning.value);
      BehindUserIff(items, idx);
    }
    if NoUserFrom(items, idx) && FollowsMessage(items, idx) {
      assert items[idx - 1].role[0] == 'a' && !IsUser(items[idx - 1]);
      EmittedBehindUser(items, idx - 1);
    }
    if NoUserFrom(items, idx) && PrecedesAnchor(items, idx) {
      EmittedBehindUser(items, idx + 1);
    }
  }

  lemma BehindUserIff(items: seq<TranscriptItem>, idx: nat)
    requires idx < |items| && items[idx].Reasoning?
    ensures AfterLastUser(items, idx) <==> NoUserFrom(items, idx)
  {
    hide LastUserIndex;
  }

  /** With an assistant message or a call behind the last user, the last role is not the user's. */
  lemma {:induction false} EmittedBehindUser(items: seq<TranscriptItem>, k: nat)
    requires k < |items| && (IsAssistant(items[k]) || items[k].ToolCall?) && NoUserFrom(items, k)
    ensures LastEmittedRole(items).Some? && LastEmittedRole(items) != Some("user")
  {
    var n := |items| - 1;
    if k < n {
      EmittedBehindUser(items[..n], k);
    }
  }

  /** The texts attached to `k` among the first `n` items, in transcript order. */
  function AnchoredTexts(items: seq<TranscriptItem>, n: nat, k: nat): seq<string>
    requires n <= |items|
  {
    if n == 0 then []
    else AnchoredTexts(items, n - 1, k)
         + if AnchorOf(items, n - 1) == Some(k) then [VisibleReasoning(items[n - 1]).value] else []
  }

  predicate HoldsAnchors(anchors: map<nat, string>, items: seq<TranscriptItem>, n: nat, k: nat)
    requires n <= |items|
  {
    var texts := AnchoredTexts(items, n, k);
    (k in anchors <==> texts != []) && (k in anchors ==> anchors[k] == Flatten(texts))
  }

  function Attach(anchors: map<nat, string>, k: nat, text: string): map<nat, string> {
    anchors[k := (if k in anchors then anchors[k] else []) + text]
  }

  lemma AttachHolds(anchors: map<nat, string>, items: seq<TranscriptItem>, n: nat, k: nat)
    requires n < |items| && HoldsAnchors(anchors, items, n, k)
    ensures var anchor := AnchorOf(items, n);
            var after :=
              if anchor.Some? then Attach(anchors, anchor.value, VisibleReasoning(items[n]).value) else anchors;
            HoldsAnchors(after, items, n + 1, k)
  {
    hide AnchorOf;
    var anchor := AnchorOf(items, n);
    var texts := AnchoredTexts(items, n, k);
    assert texts + [] == texts;
    if anchor == Some(k) {
      VisibleAnchor(items, n);
      FlattenPush(texts, VisibleReasoning(items[n]).value);
    }
  }

  lemma VisibleAnchor(items: seq<TranscriptItem>, idx: nat)
    requires idx < |items| && AnchorOf(items, idx).Some?
    ensures VisibleReasoning(items[idx]).Some?
  {
  }

  method FindLastEmittedRole(items: seq<TranscriptItem>) returns (role: Option<string>)
    ensures role == LastEmittedRole(items)
  {
    role := None;
    assert items[..0] == [];
    for i := 0 to |items|
      invariant role == LastEmittedRole(items[..i])
    {
      assert items[..i + 1][..i] == items[..i];
      match items[i] {
        case Message(_, r, _, _) => role := Some(r);
        case ToolCall(_, _, _, _) => role := Some(ASSISTANT);
        case ToolResult(_, _, _) => role := Some("tool");
        case _ =>
      }
    }
    assert items[..|items|] == items;
  }

  method FindLastUserIndex(items: seq<TranscriptItem>) returns (index: Option<nat>)
    ensures index == LastUserIndex(items)
  {
    index := None;
    assert items[..0] == [];
    for i := 0 to |items|
      invariant index == LastUserIndex(items[..i])
    {
      assert items[..i + 1][..i] == items[..i];
      if IsUser(items[i]) {
        index := Some(i);
      }
    }
    assert items[..|items|] == items;
  }

  method JoinReasoningText(content: seq<ReasoningContent>) returns (text: string)
    ensures text == ReasoningJoined(content)
  {
    text := [];
    assert content[..0] == [];
    for i := 0 to |content|
      invariant text == ReasoningJoined(content[..i])
    {
      assert content[..i + 1][..i] == content[..i];
      text := text + content[i].text;
    }
    assert content[..|content|] == content;
  }

  /** The anchor pass fills the map with exactly the attached texts. */
  method AnchorReasoning(items: seq<TranscriptItem>) returns (anchors: map<nat, string>)
    ensures forall k: nat :: HoldsAnchors(anchors, items, |items|, k)
  {
    hide HoldsAnchors, Attach, IsBlank, ReasoningJoined, LastEmittedRole, LastUserIndex;
    anchors := map[];
    var lastRole := FindLastEmittedRole(items);
    var lastUser := FindLastUserIndex(items);
    NoAnchors(anchors, items);
    for idx := 0 to |items|
      invariant forall k: nat :: HoldsAnchors(anchors, items, idx, k)
    {
      ghost var before := anchors;
      if lastRole != Some("user") && (lastUser.None? || lastUser.value < idx)
         && items[idx].Reasoning? && items[idx].reasoning.Some? {
        var text := JoinReasoningText(items[idx].reasoning.value);
        if !IsBlank(text) {
          if idx > 0 && IsAssistant(items[idx - 1]) {
            anchors := Attach(anchors, idx - 1, text);
          } else if idx + 1 < |items| {
            if idx + 2 < |items| && IsAssistant(items[idx + 1]) && items[idx + 2].ToolCall? {
              anchors := Attach(anchors, idx + 2, text);
            } else if items[idx + 1].ToolCall? {
              anchors := Attach(anchors, idx + 1, text);
            } else if IsAssistant(items[idx + 1]) {
              anchors := Attach(anchors, idx + 1, text);
            }
          }
        }
      }
      ghost var next := idx + 1;
      forall k: nat ensures HoldsAnchors(anchors, items, next, k) { AttachHolds(before, items, idx, k); }
    }
  }

  lemma NoAnchors(anchors: map<nat, string>, items: seq<TranscriptItem>)
    requires anchors == map[]
    ensures forall k: nat :: HoldsAnchors(anchors, items, 0, k)
  {
  }

  // ---------------------------------------------------------------------------
  // The messages

  function ContentText(content: seq<ContentItem>): string {
    if content == [] then []
    else
      var n := |content| - 1;
      ContentText(content[..n]) + if content[n].InputImage? then [] else content[n].text
  }

  function ContentWireParts(content: seq<ContentItem>): seq<WirePart> {
    seq(|content|, i requires 0 <= i < |content| =>
      if content[i].InputImage? then ImagePart(content[i].imageUrl) else TextPart(content[i].text))
  }

  predicate HasImage(content: seq<ContentItem>) {
    exists i :: 0 <= i < |content| && content[i].InputImage?
  }

  function WireRole(role: string, handling: DeveloperRoleHandling): string {
    if role == "developer" && handling.DowngradeToSystem? then "system" else role
  }

  function MergeReasoning(existing: Option<string>, added: Option<string>): Option<string> {
    if added.None? then existing
    else if existing.Some? && existing.value != [] then Some(existing.value + "\n" + added.value)
    else added
  }

  datatype Builder = Builder(messages: seq<WireMessage>, lastAssistantText: Option<string>)

  predicate HoldsCalls(m: WireMessage) {
    m.role == ASSISTANT && m.toolCalls.Some? && m.toolCalls.value != []
  }

  /** A tool call joins the last message if that has calls and no text yet. */
  predicate TakesCalls(messages: seq<WireMessage>) {
    && messages != []
    && var m := messages[|messages| - 1];
    m.role == ASSISTANT && m.content.NullContent? && m.toolCalls.Some?
  }

  function Append<T>(s: seq<T>, x: T): seq<T> { s + [x] }

  function ReplaceLast<T>(s: seq<T>, x: T): seq<T>
    requires s != []
  {
    s[..|s| - 1] + [x]
  }

  function PushToolCall(messages: seq<WireMessage>, call: WireCall, reasoning: Option<string>): seq<WireMessage> {
    if TakesCalls(messages) then
      var m := messages[|messages| - 1];
      var calls := Some(m.toolCalls.value + [call]);
      ReplaceLast(messages, m.(toolCalls := calls, reasoning := MergeReasoning(m.reasoning, reasoning)))
    else Append(messages, WireMessage(ASSISTANT, NullContent, Some([call]), None, reasoning))
  }

  /** Folds text into a message with calls, behind the calls. */
  function FoldText(m: WireMessage, text: string, reasoning: Option<string>): WireMessage {
    m.(content := TextContent(if m.content.TextContent? then m.content.text + text else text),
       reasoning := MergeReasoning(m.reasoning, reasoning))
  }

  function AddAssistant(b: Builder, content: seq<ContentItem>, reasoning: Option<string>): Builder {
    var text := ContentText(content);
    if b.lastAssistantText == Some(text) then b
    else
      var n := |b.messages|;
      if !HasImage(content) && n > 0 && HoldsCalls(b.messages[n - 1]) then
        Builder(ReplaceLast(b.messages, FoldText(b.messages[n - 1], text, reasoning)), Some(text))
      else
        Builder(Append(b.messages, PlainMessage(ASSISTANT, TextContent(text), reasoning)), Some(text))
  }

  function CallOf(item: TranscriptItem): WireCall
    requires item.ToolCall?
  {
    match item.payload
    case JsonArguments(arguments) => FunctionCall(item.callId, item.toolName, arguments)
    case TextInput(input) => CustomCall(item.toolCallId, item.toolName, input)
  }

  function ResultContent(result: ToolResultPayload): WireContent {
    match result
    case Text(output) => TextContent(output)
    case Structured(content, None, _) => TextContent(content)
    case Structured(_, Some(items), _) => PartsContent(ContentWireParts(items))
  }

  function ResultMessage(item: TranscriptItem): WireMessage
    requires item.ToolResult?
  {
    WireMessage("tool", ResultContent(item.result), None, Some(item.resultCallId), None)
  }

  function OtherMessage(role: string, content: seq<ContentItem>): WireMessage {
    var wire :=
      if HasImage(content) then PartsContent(ContentWireParts(content)) else TextContent(ContentText(content));
    PlainMessage(role, wire, None)
  }

  function AddItem(b: Builder, item: TranscriptItem, reasoning: Option<string>,
                   handling: DeveloperRoleHandling): Builder {
    match item
    case Message(_, role, content, _) =>
      if WireRole(role, handling) == ASSISTANT then AddAssistant(b, content, reasoning)
      else b.(messages := Append(b.messages, OtherMessage(WireRole(role, handling), content)))
    case ToolCall(_, _, _, _) => b.(messages := PushToolCall(b.messages, CallOf(item), reasoning))
    case ToolResult(_, _, _) => b.(messages := Append(b.messages, ResultMessage(item)))
    case _ => b
  }

  function Lookup(anchors: map<nat, string>, k: nat): Option<string> {
    if k in anchors then Some(anchors[k]) else None
  }

  function AddItems(b: Builder, items: seq<TranscriptItem>, n: nat, anchors: map<nat, string>,
                    handling: DeveloperRoleHandling): Builder
    requires n <= |items|
  {
    if n == 0 then b
    else AddItem(AddItems(b, items, n - 1, anchors, handling), items[n - 1], Lookup(anchors, n - 1), handling)
  }

  function SystemMessage(instructions: string): WireMessage {
    PlainMessage("system", TextContent(instructions), None)
  }

  class ChatRequestBuilder {
    const instructions: string
    const input: seq<TranscriptItem>
    const handling: DeveloperRoleHandling
    var messages: seq<WireMessage>
    var lastAssistantText: Option<string>

    constructor (instructions: string, input: seq<TranscriptItem>, handling: DeveloperRoleHandling)
      ensures this.instructions == instructions && this.input == input && this.handling == handling
    {
      this.instructions, this.input, this.handling := instructions, input, handling;
      messages, lastAssistantText := [], None;
    }

    function Current(): Builder
      reads this
    {
      Builder(messages, lastAssistantText)
    }

    /** Both passes over the transcript. */
    method Build() returns (anchors: map<nat, string>)
      modifies this
      ensures forall k: nat :: HoldsAnchors(anchors, input, |input|, k)
      ensures Current() == AddItems(Builder([SystemMessage(instructions)], None), input, |input|, anchors, handling)
    {
      hide AddItem, HoldsAnchors;
      messages := [SystemMessage(instructions)];
      lastAssistantText := None;
      anchors := AnchorReasoning(input);
      for idx := 0 to |input|
        invariant Current() == AddItems(Builder([SystemMessage(instructions)], None), input, idx, anchors, handling)
      {
        BuildItem(input[idx], if idx in anchors then Some(anchors[idx]) else None);
      }
    }

    method BuildItem(item: TranscriptItem, reasoning: Option<string>)
      modifies this
      ensures Current() == AddItem(old(Current()), item, reasoning, handling)
    {
      hide ContentText, ContentWireParts, HasImage, MergeReasoning, ResultContent;
      match item {
        case Message(_, role, content, _) =>
          var wireRole := WireRole(role, handling);
          var text, parts, sawImage := ReadContent(content);
          if wireRole == ASSISTANT {
            if lastAssistantText.Some? && lastAssistantText.value == text {
              return;
            }
            lastAssistantText := Some(text);
          }
          var n := |messages|;
          if wireRole == ASSISTANT && !sawImage && n > 0 && HoldsCalls(messages[n - 1]) {
            messages := messages[..n - 1] + [FoldText(messages[n - 1], text, reasoning)];
            return;
          }
          var value := if wireRole != ASSISTANT && sawImage then PartsContent(parts) else TextContent(text);
          messages := messages + [PlainMessage(wireRole, value, if wireRole == ASSISTANT then reasoning else None)];
        case ToolCall(_, _, _, _) =>
          PushToolCallMessage(CallOf(item), reasoning);
        case ToolResult(_, _, _) =>
          messages := messages + [ResultMessage(item)];
        case _ =>
      }
    }

    method PushToolCallMessage(call: WireCall, reasoning: Option<string>)
      modifies this`messages
      ensures messages == PushToolCall(old(messages), call, reasoning)
    {
      if TakesCalls(messages) {
        var n := |messages| - 1;
        var m := messages[n];
        m := m.(toolCalls := Some(m.toolCalls.value + [call]), reasoning := MergeReasoning(m.reasoning, reasoning));
        messages := messages[..n] + [m];
        return;
      }
      messages := messages + [WireMessage(ASSISTANT, NullContent, Some([call]), None, reasoning)];
    }
  }

  method ReadContent(content: seq<ContentItem>) returns (text: string, parts: seq<WirePart>, sawImage: bool)
    ensures text == ContentText(content) && parts == ContentWireParts(content) && sawImage == HasImage(content)
  {
    hide ContentText, ContentWireParts, HasImage;
    text, parts, sawImage := [], [], false;
    NoContent();
    assert content[..0] == [];
    for i := 0 to |content|
      invariant text == ContentText(content[..i])
      invariant parts == ContentWireParts(content[..i])
      invariant sawImage == HasImage(content[..i])
    {
      ContentStep(content, i);
      HasImageStep(content, i);
      match content[i] {
        case InputText(t) => text := text + t; parts := parts + [TextPart(t)];
        case OutputText(t) => text := text + t; parts := parts + [TextPart(t)];
        case InputImage(url) => sawImage := true; parts := parts + [ImagePart(url)];
      }
    }
    assert content[..|content|] == content;
  }

  lemma NoContent()
    ensures ContentText([]) == [] && ContentWireParts([]) == [] && !HasImage([])
  {
  }

  lemma ContentStep(content: seq<ContentItem>, i: nat)
    requires i < |content|
    ensures ContentText(content[..i + 1])
         == if content[i].InputImage? then ContentText(content[..i]) else ContentText(content[..i]) + content[i].text
    ensures ContentWireParts(content[..i + 1])
         == ContentWireParts(content[..i])
            + [if content[i].InputImage? then ImagePart(content[i].imageUrl) else TextPart(content[i].text)]
  {
    assert content[..i + 1][..i] == content[..i];
    assert ContentText(content[..i]) + [] == ContentText(content[..i]);
  }

  lemma HasImageStep(content: seq<ContentItem>, i: nat)
    requires i < |content|
    ensures HasImage(content[..i + 1]) <==> HasImage(content[..i]) || content[i].InputImage?
  {
    var head := content[..i + 1];
    assert head[i] == content[i];
    assert forall j :: 0 <= j < i ==> head[j] == content[..i][j];
  }
}
