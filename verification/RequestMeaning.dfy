/** What the built messages say: nothing of the transcript is lost, repeated or reordered, and
    calls are followed by their results (src/llm/src/api/requests/chat.rs:175-408). */
module RequestMeaning {
  import opened Basics
  import opened Transcript
  import opened ChatRequest

  // ---------------------------------------------------------------------------
  // Flattening messages gives back the transcript

  /** One character of assistant text, one tool call, or one whole message of another role. */
  datatype Piece = AssistantChar(ch: char) | CallPiece(call: WireCall) | OtherPiece(message: WireMessage)

  function CharPieces(text: string): seq<Piece> {
    seq(|text|, i requires 0 <= i < |text| => AssistantChar(text[i]))
  }

  function CallPieces(calls: seq<WireCall>): seq<Piece> {
    seq(|calls|, i requires 0 <= i < |calls| => CallPiece(calls[i]))
  }

  /** An assistant message says its calls, then its text. */
  function MessagePieces(m: WireMessage): seq<Piece> {
    if m.role != ASSISTANT then [OtherPiece(m)]
    else CallPieces(OrEmpty(m.toolCalls)) + CharPieces(if m.content.TextContent? then m.content.text else [])
  }

  function Pieces(messages: seq<WireMessage>): seq<Piece> {
    if messages == [] then []
    else Pieces(messages[..|messages| - 1]) + MessagePieces(messages[|messages| - 1])
  }

  /** The text of the last assistant message among some items. */
  function PreviousAssistantText(items: seq<TranscriptItem>): Option<string> {
    if items == [] then None
    else
      var n := |items| - 1;
      if IsAssistant(items[n]) then Some(ContentText(items[n].content)) else PreviousAssistantText(items[..n])
  }

  /** What one item says after the items before it: an assistant text equal to the one before
      it is dropped. */
  function ItemPieces(before: seq<TranscriptItem>, item: TranscriptItem, handling: DeveloperRoleHandling): seq<Piece> {
    match item
    case Message(_, role, content, _) =>
      if role != ASSISTANT then [OtherPiece(OtherMessage(WireRole(role, handling), content))]
      else if PreviousAssistantText(before) == Some(ContentText(content)) then []
      else CharPieces(ContentText(content))
    case ToolCall(_, _, _, _) => [CallPiece(CallOf(item))]
    case ToolResult(_, _, _) => [OtherPiece(ResultMessage(item))]
    case _ => []
  }

  function TranscriptPieces(items: seq<TranscriptItem>, n: nat, handling: DeveloperRoleHandling): seq<Piece>
    requires n <= |items|
  {
    if n == 0 then []
    else TranscriptPieces(items, n - 1, handling) + ItemPieces(items[..n - 1], items[n - 1], handling)
  }

  lemma PiecesAppend(messages: seq<WireMessage>, m: WireMessage)
    ensures Pieces(Append(messages, m)) == Pieces(messages) + MessagePieces(m)
  {
    hide MessagePieces;
    assert Append(messages, m)[..|messages|] == messages;
  }

  lemma PiecesReplaceLast(messages: seq<WireMessage>, m: WireMessage, more: seq<Piece>)
    requires messages != []
    requires MessagePieces(m) == MessagePieces(messages[|messages| - 1]) + more
    ensures Pieces(ReplaceLast(messages, m)) == Pieces(messages) + more
  {
    hide MessagePieces;
    var n := |messages| - 1;
    PiecesAppend(messages[..n], m);
    Associative(Pieces(messages[..n]), MessagePieces(messages[n]), more);
  }

  lemma PushedCall(messages: seq<WireMessage>, call: WireCall, reasoning: Option<string>)
    ensures Pieces(PushToolCall(messages, call, reasoning)) == Pieces(messages) + [CallPiece(call)]
  {
    hide MergeReasoning, Pieces;
    if TakesCalls(messages) {
      var m := messages[|messages| - 1];
      var calls := m.toolCalls.value;
      var added := m.(toolCalls := Some(calls + [call]), reasoning := MergeReasoning(m.reasoning, reasoning));
      assert CallPieces(calls + [call]) == CallPieces(calls) + [CallPiece(call)];
      assert CharPieces([]) == [];
      assert MessagePieces(added) == MessagePieces(m) + [CallPiece(call)];
      PiecesReplaceLast(messages, added, [CallPiece(call)]);
    } else {
      var m := WireMessage(ASSISTANT, NullContent, Some([call]), None, reasoning);
      assert MessagePieces(m) == [CallPiece(call)];
      PiecesAppend(messages, m);
    }
  }

  lemma FoldedText(m: WireMessage, text: string, reasoning: Option<string>)
    requires m.role == ASSISTANT
    ensures MessagePieces(FoldText(m, text, reasoning)) == MessagePieces(m) + CharPieces(text)
  {
    hide MergeReasoning;
    var old_ := if m.content.TextContent? then m.content.text else [];
    assert CharPieces(old_ + text) == CharPieces(old_) + CharPieces(text);
    assert [] + text == text;
    Associative(CallPieces(OrEmpty(m.toolCalls)), CharPieces(old_), CharPieces(text));
  }

  lemma AddedAssistant(b: Builder, content: seq<ContentItem>, reasoning: Option<string>)
    ensures var text := ContentText(content);
            && AddAssistant(b, content, reasoning).lastAssistantText == Some(text)
            && Pieces(AddAssistant(b, content, reasoning).messages)
               == Pieces(b.messages) + if b.lastAssistantText == Some(text) then [] else CharPieces(text)
  {
    hide Pieces, HasImage, ContentText, FoldText;
    var text := ContentText(content);
    var n := |b.messages|;
    if b.lastAssistantText == Some(text) {
      assert Pieces(b.messages) + [] == Pieces(b.messages);
    } else if !HasImage(content) && n > 0 && HoldsCalls(b.messages[n - 1]) {
      FoldedText(b.messages[n - 1], text, reasoning);
      PiecesReplaceLast(b.messages, FoldText(b.messages[n - 1], text, reasoning), CharPieces(text));
    } else {
      var m := PlainMessage(ASSISTANT, TextContent(text), reasoning);
      assert MessagePieces(m) == CharPieces(text) by { assert [] + CharPieces(text) == CharPieces(text); }
      PiecesAppend(b.messages, m);
    }
  }

  lemma RolesStayApart(role: string, handling: DeveloperRoleHandling)
    ensures WireRole(role, handling) == ASSISTANT <==> role == ASSISTANT
  {
  }

  lemma AddedItem(b: Builder, before: seq<TranscriptItem>, item: TranscriptItem, reasoning: Option<string>,
                  handling: DeveloperRoleHandling)
    requires b.lastAssistantText == PreviousAssistantText(before)
    ensures var c := AddItem(b, item, reasoning, handling);
            && c.lastAssistantText == PreviousAssistantText(before + [item])
            && Pieces(c.messages) == Pieces(b.messages) + ItemPieces(before, item, handling)
  {
    hide Pieces, AddAssistant, PushToolCall, ContentText, OtherMessage, ResultContent, WireRole;
    assert (before + [item])[..|before|] == before;
    match item
    case Message(_, role, content, _) =>
      RolesStayApart(role, handling);
      if role == ASSISTANT {
        AddedAssistant(b, content, reasoning);
      } else {
        OtherIsOther(role, content, handling);
        PiecesAppend(b.messages, OtherMessage(WireRole(role, handling), content));
      }
    case ToolCall(_, _, _, _) => PushedCall(b.messages, CallOf(item), reasoning);
    case ToolResult(_, _, _) => PiecesAppend(b.messages, ResultMessage(item));
    case _ => assert Pieces(b.messages) + [] == Pieces(b.messages);
  }

  lemma OtherIsOther(role: string, content: seq<ContentItem>, handling: DeveloperRoleHandling)
    requires WireRole(role, handling) != ASSISTANT
    ensures MessagePieces(OtherMessage(WireRole(role, handling),
                                       content)) == [OtherPiece(OtherMessage(WireRole(role, handling), content))]
  {
    hide WireRole;
  }

  lemma {:induction false} AddedItems(b: Builder, items: seq<TranscriptItem>, n: nat, anchors: map<nat, string>,
                                      handling: DeveloperRoleHandling)
    requires n <= |items| && b.lastAssistantText.None?
    ensures var c := AddItems(b, items, n, anchors, handling);
            && c.lastAssistantText == PreviousAssistantText(items[..n])
            && Pieces(c.messages) == Pieces(b.messages) + TranscriptPieces(items, n, handling)
  {
    hide AddItem, Pieces, ItemPieces;
    if n == 0 {
      assert Pieces(b.messages) + [] == Pieces(b.messages);
      NoPrevious();
    } else {
      hide PreviousAssistantText;
      AddedItems(b, items, n - 1, anchors, handling);
      var c := AddItems(b, items, n - 1, anchors, handling);
      AddedItem(c, items[..n - 1], items[n - 1], Lookup(anchors, n - 1), handling);
      assert items[..n] == items[..n - 1] + [items[n - 1]];
      Associative(Pieces(b.messages), TranscriptPieces(items, n - 1, handling),
                  ItemPieces(items[..n - 1], items[n - 1], handling));
    }
  }

  lemma NoPrevious()
    ensures PreviousAssistantText([]) == None
  {
  }

  /** For every transcript, the built messages say the instructions and then, in order, exactly
      what the transcript says: every call, every result, every message of another role, and the
      assistant text with immediate repetitions removed. */
  lemma MessagesSayTheTranscript(instructions: string, items: seq<TranscriptItem>, anchors: map<nat, string>,
                                 handling: DeveloperRoleHandling)
    ensures Pieces(AddItems(Builder([SystemMessage(instructions)], None), items, |items|, anchors, handling).messages)
         == [OtherPiece(SystemMessage(instructions))] + TranscriptPieces(items, |items|, handling)
  {
    hide AddItems, TranscriptPieces;
    AddedItems(Builder([SystemMessage(instructions)], None), items, |items|, anchors, handling);
    assert items[..|items|] == items;
    var m := SystemMessage(instructions);
    assert [m][..0] == [];
    assert Pieces([m]) == [] + MessagePieces(m) == [OtherPiece(m)];
  }
}
