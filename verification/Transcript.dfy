/** Transcript items and the events a provider stream is turned into
    (src/llm/src/types/transcript.rs, src/llm/src/api/common.rs). */
module Transcript {
  import opened Basics

  datatype Json =
    | JNull
    | JBool(b: bool)
    | JNumber(n: int)
    | JString(s: string)
    | JArray(items: seq<Json>)
    | JObject(fields: map<string, Json>)

  datatype ContentItem =
    | InputText(text: string)
    | InputImage(imageUrl: string)
    | OutputText(text: string)

  datatype ReasoningContent = ReasoningText(text: string) | PlainText(text: string)

  datatype ToolCallPayload = JsonArguments(arguments: string) | TextInput(input: string)

  datatype ToolResultPayload =
    | Structured(content: string, contentItems: Option<seq<ContentItem>>, success: Option<bool>)
    | Text(output: string)

  datatype TranscriptItem =
    | Message(id: Option<string>, role: string, content: seq<ContentItem>, endTurn: Option<bool>)
    | Reasoning(reasoningId: string, summary: seq<string>, reasoning: Option<seq<ReasoningContent>>,
                encrypted: Option<string>)
    | HostedActivity(activityId: Option<string>, activityType: string, status: Option<string>, activity: Json)
    | ToolCall(toolCallId: Option<string>, callId: string, toolName: string, payload: ToolCallPayload)
    | ToolResult(resultCallId: string, resultToolName: string, result: ToolResultPayload)
    | Unknown(raw: Json)

  datatype TokenUsage = TokenUsage(input: int, cached: int, output: int, reasoningOutput: int, total: int)

  datatype ResponseEvent =
    | Created
    | OutputItemAdded(item: TranscriptItem)
    | OutputItemDone(item: TranscriptItem)
    | OutputTextDelta(delta: string)
    | ProposedPlanDelta(delta: string)
    | ProposedPlanDone(text: string)
    | ReasoningSummaryDelta(delta: string, summaryIndex: int)
    | ReasoningContentDelta(delta: string, contentIndex: int)
    | ReasoningSummaryPartAdded(summaryIndex: int)
    | ServerReasoningIncluded(included: bool)
    | ModelsEtag(etag: string)
    | Completed(responseId: string, usage: Option<TokenUsage>)

  datatype ApiError =
    | StreamError(message: string)
    | ContextWindowExceeded
    | InvalidRequest(message: string)

  /** What is sent over an event channel. */
  type Output = Result<ResponseEvent, ApiError>

  const ASSISTANT: string := "assistant"

  predicate IsAssistant(item: TranscriptItem) {
    item.Message? && item.role == ASSISTANT
  }

  function AssistantMessage(texts: seq<string>): TranscriptItem {
    Message(None, ASSISTANT, OutputTexts(texts), None)
  }

  function ReasoningItem(texts: seq<string>): TranscriptItem {
    Reasoning([], [], Some(ReasoningTexts(texts)), None)
  }

  function OutputTexts(texts: seq<string>): (r: seq<ContentItem>)
    ensures |r| == |texts|
  {
    seq(|texts|, i requires 0 <= i < |texts| => OutputText(texts[i]))
  }

  function ReasoningTexts(texts: seq<string>): (r: seq<ReasoningContent>)
    ensures |r| == |texts|
  {
    seq(|texts|, i requires 0 <= i < |texts| => ReasoningText(texts[i]))
  }

  /** The output text of a message, joined. */
  function JoinOutputText(content: seq<ContentItem>): string {
    if content == [] then []
    else (if content[0].OutputText? then content[0].text else []) + JoinOutputText(content[1..])
  }

  lemma {:induction false} JoinOutputTexts(texts: seq<string>)
    ensures JoinOutputText(OutputTexts(texts)) == Flatten(texts)
  {
    if texts != [] {
      JoinOutputTexts(texts[1..]);
      assert OutputTexts(texts)[1..] == OutputTexts(texts[1..]);
    }
  }
}
