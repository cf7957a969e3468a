/** The decoded Chat Completions JSON, reduced to the fields the code reads
    (src/llm/src/api/sse/chat.rs). */
module ChatWire {
  import opened Basics
  import opened Transcript
  import opened ToolCallTable

  datatype ReasoningValue =
    | ReasoningString(s: string)
    | ReasoningObject(text: Option<string>, content: Option<string>)
    | OtherReasoning

  datatype ContentPart = PartString(s: string) | PartObject(text: Option<string>) | OtherPart

  datatype ContentValue =
    | ContentString(s: string)
    | ContentParts(parts: seq<ContentPart>)
    | ContentNull
    | OtherContent

  datatype Delta = Delta(
    refusal: Option<string>, reasoning: Option<ReasoningValue>,
    content: Option<ContentValue>, toolCalls: Option<seq<ToolDelta>>)

  /** A tool call of a whole message: a fragment without an index. */
  datatype WholeCall = WholeCall(id: Option<string>, func: Option<FunctionDelta>)

  datatype ChatMessage = ChatMessage(
    refusal: Option<string>, reasoning: Option<ReasoningValue>,
    content: Option<ContentValue>, toolCalls: Option<seq<WholeCall>>)

  datatype Choice = Choice(message: Option<ChatMessage>, delta: Option<Delta>, finishReason: Option<string>)

  datatype Chunk = Chunk(usage: Option<TokenUsage>, choices: Option<seq<Choice>>)

  /** One poll of the event source: data, an error, the end of the stream, or no data in time. */
  datatype Poll = Data(data: SseData) | TransportError(message: string) | EndOfStream | TimedOut

  datatype SseData = BlankData | DoneSentinel | NotJson | ChunkData(chunk: Chunk)

  function ReasoningTextOf(value: Option<ReasoningValue>): Option<string> {
    match value
    case None => None
    case Some(ReasoningString(s)) => Some(s)
    case Some(ReasoningObject(text, content)) => OrElse(text, content)
    case Some(OtherReasoning) => None
  }

  const CONTENT_FILTER_MESSAGE: string := "chat completion was blocked by the provider content filter"

  predicate Refuses(refusal: Option<string>) {
    refusal.Some? && !IsBlank(refusal.value)
  }

  /** `chat_refusal_error`: a refusal of the message, else of the delta, else a content filter. */
  function RefusalError(choice: Choice): Option<ApiError> {
    if choice.message.Some? && Refuses(choice.message.value.refusal) then
      Some(InvalidRequest(choice.message.value.refusal.value))
    else if choice.delta.Some? && Refuses(choice.delta.value.refusal) then
      Some(InvalidRequest(choice.delta.value.refusal.value))
    else if choice.finishReason == Some("content_filter") then
      Some(InvalidRequest(CONTENT_FILTER_MESSAGE))
    else None
  }

  /** The texts a streamed content value contributes: strings inside a list are skipped. */
  function StreamedTexts(content: Option<ContentValue>): seq<string> {
    match content
    case Some(ContentString(s)) => [s]
    case Some(ContentParts(parts)) => PartTexts(parts)
    case _ => []
  }

  function PartTexts(parts: seq<ContentPart>): seq<string> {
    if parts == [] then []
    else
      var n := |parts| - 1;
      PartTexts(parts[..n]) + if parts[n].PartObject? && parts[n].text.Some? then [parts[n].text.value] else []
  }

  function ToolDeltas(delta: Delta): seq<ToolDelta> {
    OrEmpty(delta.toolCalls)
  }
}
