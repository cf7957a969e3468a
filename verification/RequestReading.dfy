/** What a reader of the chat messages finds, against what is read directly off the transcript: the
    roles, texts and parts of other messages, the ids, names and arguments of calls, the ids and
    contents of results, and the assistant text less immediate repetitions
    (src/llm/src/api/requests/chat.rs:175-351). */
module RequestReading {
  import opened Basics
  import opened Transcript
  import opened ChatRequest
  import opened RequestMeaning

  /** A text, or a list of texts and pictures. */
  datatype Body = Words(text: string) | Parts(parts: seq<Part>)

  datatype Part = Word(text: string) | Picture(url: string)

  /** One character of assistant text, one call, one result, or one message of another role. */
  datatype Reading =
    | AssistantSays(ch: char)
    | Calls(id: string, name: string, arguments: string)
    | CallsCustom(customId: Option<string>, name: string, input: string)
    | Answers(id: string, body: Body)
    | Says(role: string, body: Body)

  // ---------------------------------------------------------------------------
  // Read off the messages

  function ReadParts(parts: seq<WirePart>): (r: seq<Part>)
    ensures |r| == |parts|
  {
    seq(|parts|, i requires 0 <= i < |parts| =>
      match parts[i]
      case TextPart(text) => Word(text)
      case ImagePart(url) => Picture(url))
  }

  function ReadBody(content: WireContent): Body {
    match content
    case NullContent => Words("")
    case TextContent(text) => Words(text)
    case PartsContent(parts) => Parts(ReadParts(parts))
  }

  function ReadCall(call: WireCall): Reading {
    match call
    case FunctionCall(id, name, arguments) => Calls(id, name, arguments)
    case CustomCall(id, name, input) => CallsCustom(id, name, input)
  }

  function ReadCalls(calls: seq<WireCall>): seq<Reading> {
    seq(|calls|, i requires 0 <= i < |calls| => ReadCall(calls[i]))
  }

  function ReadText(text: string): seq<Reading> {
    seq(|text|, i requires 0 <= i < |text| => AssistantSays(text[i]))
  }

  /** A message of another role: an answer if it names a call. */
  function ReadOther(m: WireMessage): Reading {
    if m.toolCallId.Some? then Answers(m.toolCallId.value, ReadBody(m.content)) else Says(m.role, ReadBody(m.content))
  }

  function ReadMessage(m: WireMessage): seq<Reading> {
    if m.role != "assistant" then [ReadOther(m)]
    else ReadCalls(OrEmpty(m.toolCalls)) + ReadText(if m.content.TextContent? then m.content.text else "")
  }

  function ReadMessages(messages: seq<WireMessage>): seq<Reading> {
    if messages == [] then []
    else ReadMessages(messages[..|messages| - 1]) + ReadMessage(messages[|messages| - 1])
  }

  // ---------------------------------------------------------------------------
  // Read off the transcript

  /** The texts of a content, joined; pictures are no text. */
  function TextIn(content: seq<ContentItem>): string {
    if content == [] then ""
    else
      (match content[0]
       case InputText(text) => text
       case OutputText(text) => text
       case InputImage(_) => "") + TextIn(content[1..])
  }

  function PartsIn(content: seq<ContentItem>): seq<Part> {
    if content == [] then []
    else
      [match content[0]
       case InputText(text) => Word(text)
       case OutputText(text) => Word(text)
       case InputImage(url) => Picture(url)] + PartsIn(content[1..])
  }

  /** A content with a picture is a list of parts, any other a text. */
  function BodyIn(content: seq<ContentItem>): Body {
    if exists i :: 0 <= i < |content| && content[i].InputImage? then Parts(PartsIn(content)) else Words(TextIn(content))
  }

  /** The text of the last assistant message before `n`. */
  function SpokenBefore(items: seq<TranscriptItem>, n: nat): Option<string>
    requires n <= |items|
  {
    if n == 0 then None
    else if items[n - 1].Message? && items[n - 1].role == "assistant" then Some(TextIn(items[n - 1].content))
    else SpokenBefore(items, n - 1)
  }

  /** What one item says at its place. */
  function ItemReading(items: seq<TranscriptItem>, n: nat, handling: DeveloperRoleHandling): seq<Reading>
    requires n < |items|
  {
    match items[n]
    case Message(_, role, content, _) =>
      if role == "assistant" then
        if SpokenBefore(items, n) == Some(TextIn(content)) then [] else ReadText(TextIn(content))
      else if role == "developer" && handling.DowngradeToSystem? then [Says("system", BodyIn(content))]
      else [Says(role, BodyIn(content))]
    case ToolCall(_, callId, name, JsonArguments(arguments)) => [Calls(callId, name, arguments)]
    case ToolCall(id, _, name, TextInput(input)) => [CallsCustom(id, name, input)]
    case ToolResult(callId, _, Text(output)) => [Answers(callId, Words(output))]
    case ToolResult(callId, _, Structured(text, None, _)) => [Answers(callId, Words(text))]
    case ToolResult(callId, _, Structured(_, Some(content), _)) => [Answers(callId, Parts(PartsIn(content)))]
    case _ => []
  }

  function TranscriptReading(items: seq<TranscriptItem>, n: nat, handling: DeveloperRoleHandling): seq<Reading>
    requires n <= |items|
  {
    if n == 0 then [] else TranscriptReading(items, n - 1, handling) + ItemReading(items, n - 1, handling)
  }

  // ---------------------------------------------------------------------------
  // They agree

  /** What a piece of a flattened request reads as. */
  function Read(piece: Piece): Reading {
    match piece
    case AssistantChar(ch) => AssistantSays(ch)
    case CallPiece(call) => ReadCall(call)
    case OtherPiece(m) => ReadOther(m)
  }

  function ReadAll(pieces: seq<Piece>): (r: seq<Reading>)
    ensures |r| == |pieces|
  {
    seq(|pieces|, i requires 0 <= i < |pieces| => Read(pieces[i]))
  }

  lemma ReadAllAppend(a: seq<Piece>, b: seq<Piece>)
    ensures ReadAll(a + b) == ReadAll(a) + ReadAll(b)
  {
    hide Read;
  }

  lemma MessageReads(m: WireMessage)
    ensures ReadAll(MessagePieces(m)) == ReadMessage(m)
  {
    hide ReadOther, ReadCall;
    if m.role == ASSISTANT {
      var calls, text := OrEmpty(m.toolCalls), if m.content.TextContent? then m.content.text else [];
      ReadAllAppend(CallPieces(calls), CharPieces(text));
      assert ReadAll(CallPieces(calls)) == ReadCalls(calls);
      assert ReadAll(CharPieces(text)) == ReadText(text);
    }
  }

  lemma {:induction false} MessagesRead(messages: seq<WireMessage>)
    ensures ReadAll(Pieces(messages)) == ReadMessages(messages)
  {
    hide MessagePieces, ReadMessage, ReadAll;
    if messages == [] {
      NothingRead();
    } else {
      var n := |messages| - 1;
      MessagesRead(messages[..n]);
      MessageReads(messages[n]);
      ReadAllAppend(Pieces(messages[..n]), MessagePieces(messages[n]));
    }
  }

  lemma NothingRead()
    ensures ReadAll([]) == []
  {
  }

  lemma {:induction false} TextsAgree(content: seq<ContentItem>)
    ensures ContentText(content) == TextIn(content)
  {
    if content != [] {
      var n := |content| - 1;
      TextsAgree(content[..n]);
      TextInSnoc(content[..n], content[n]);
      assert content[..n] + [content[n]] == content;
    }
  }

  lemma {:induction false} TextInSnoc(content: seq<ContentItem>, item: ContentItem)
    ensures TextIn(content + [item]) == TextIn(content) + (if item.InputImage? then "" else item.text)
  {
    if content == [] {
      assert [item][1..] == [];
      assert content + [item] == [item];
    } else {
      var all := content + [item];
      assert all[0] == content[0] && all[1..] == content[1..] + [item];
      TextInSnoc(content[1..], item);
      TextInFirst(all);
      TextInFirst(content);
      hide TextIn;
      var last := if item.InputImage? then "" else item.text;
      Associative(TextIn([content[0]]), TextIn(content[1..]), last);
    }
  }

  lemma TextInFirst(content: seq<ContentItem>)
    requires content != []
    ensures TextIn(content) == TextIn([content[0]]) + TextIn(content[1..])
  {
    assert [content[0]][1..] == [];
    assert TextIn([]) == "";
  }

  lemma {:induction false} PartsAgree(content: seq<ContentItem>)
    ensures ReadParts(ContentWireParts(content)) == PartsIn(content)
  {
    if content != [] {
      PartsAgree(content[1..]);
      assert ContentWireParts(content) == [ContentWireParts(content)[0]] + ContentWireParts(content[1..]);
    }
  }

  lemma {:induction false} SpokenAgrees(items: seq<TranscriptItem>, n: nat)
    requires n <= |items|
    ensures SpokenBefore(items, n) == PreviousAssistantText(items[..n])
  {
    hide TextIn, ContentText;
    if n > 0 {
      assert items[..n][..n - 1] == items[..n - 1];
      if IsAssistant(items[n - 1]) {
        TextsAgree(items[n - 1].content);
      } else {
        SpokenAgrees(items, n - 1);
      }
    }
  }

  lemma ItemReads(items: seq<TranscriptItem>, n: nat, handling: DeveloperRoleHandling)
    requires n < |items|
    ensures ReadAll(ItemPieces(items[..n], items[n], handling)) == ItemReading(items, n, handling)
  {
    hide TextIn, ContentText, PartsIn, ReadParts, ContentWireParts, PreviousAssistantText, SpokenBefore;
    SpokenAgrees(items, n);
    match items[n]
    case Message(_, _, content, _) =>
      TextsAgree(content);
      PartsAgree(content);
    case ToolResult(_, _, Structured(_, Some(content), _)) => PartsAgree(content);
    case _ =>
  }

  lemma {:induction false} TranscriptReads(items: seq<TranscriptItem>, n: nat, handling: DeveloperRoleHandling)
    requires n <= |items|
    ensures ReadAll(TranscriptPieces(items, n, handling)) == TranscriptReading(items, n, handling)
  {
    hide ReadAll, ItemPieces, ItemReading;
    if n == 0 {
      NothingRead();
    } else {
      TranscriptReads(items, n - 1, handling);
      ItemReads(items, n - 1, handling);
      ReadAllAppend(TranscriptPieces(items, n - 1, handling), ItemPieces(items[..n - 1], items[n - 1], handling));
    }
  }

  /** For every transcript: what is read off the built messages is the instructions and then exactly
      what is read off the items, in order. */
  lemma RequestReadsAsTranscript(instructions: string, items: seq<TranscriptItem>, anchors: map<nat, string>,
                                 handling: DeveloperRoleHandling)
    ensures ReadMessages(AddItems(Builder([SystemMessage(instructions)], None), items, |items|, anchors,
                                  handling).messages)
         == [Says("system", Words(instructions))] + TranscriptReading(items, |items|, handling)
  {
    hide AddItems, TranscriptPieces, TranscriptReading, Pieces, ReadMessages;
    var start := [OtherPiece(SystemMessage(instructions))];
    MessagesSayTheTranscript(instructions, items, anchors, handling);
    MessagesRead(AddItems(Builder([SystemMessage(instructions)], None), items, |items|, anchors, handling).messages);
    TranscriptReads(items, |items|, handling);
    ReadAllAppend(start, TranscriptPieces(items, |items|, handling));
    assert ReadAll(start) == [Says("system", Words(instructions))];
  }
}
