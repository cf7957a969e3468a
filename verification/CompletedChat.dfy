/** The non-streaming reading of a chat response: `parse_completed_response`
    (src/llm/src/api/sse/chat.rs:483-634). */
module CompletedChat {
  import opened Basics
  import opened Transcript
  import opened ToolCallTable
  import opened ChatWire

  datatype CompletedBody = CompletedBody(id: Option<string>, choices: Option<seq<Choice>>, usage: Option<TokenUsage>)

  datatype CompletedResponse = CompletedResponse(
    responseId: string, output: seq<TranscriptItem>, usage: Option<TokenUsage>)

  type Items = Result<seq<TranscriptItem>, ApiError>

  const MISSING_CHOICES: ApiError := StreamError("chat completion response missing choices")
  const MISSING_FUNCTION: ApiError := StreamError("chat completion tool call missing function")
  const MISSING_NAME: ApiError := StreamError("chat completion tool call missing function name")

  function WholeCallItem(index: nat, call: WholeCall): Result<TranscriptItem, ApiError> {
    if call.func.None? then Err(MISSING_FUNCTION)
    else if call.func.value.name.None? || call.func.value.name.value == [] then Err(MISSING_NAME)
    else
      var arguments := if call.func.value.arguments.Some? then call.func.value.arguments.value else [];
      var callId := if call.id.Some? then call.id.value else "tool-call-" + Numeral(index);
      Ok(ToolCall(None, callId, call.func.value.name.value, JsonArguments(arguments)))
  }

  /** `completed_tool_calls`: all calls, or the first error. */
  function WholeCallItems(calls: seq<WholeCall>): Items {
    if calls == [] then Ok([])
    else
      var n := |calls| - 1;
      var front := WholeCallItems(calls[..n]);
      if front.Err? then front
      else
        var last := WholeCallItem(n, calls[n]);
        if last.Err? then Err(last.error) else Ok(front.value + [last.value])
  }

  /** The texts of a whole content value: here strings inside a list count as well. */
  function CompletedTexts(content: ContentValue): seq<string> {
    match content
    case ContentString(s) => [s]
    case ContentParts(parts) => WholePartTexts(parts)
    case _ => []
  }

  function WholePartTexts(parts: seq<ContentPart>): seq<string> {
    if parts == [] then []
    else
      var n := |parts| - 1;
      WholePartTexts(parts[..n]) + match parts[n]
        case PartString(s) => [s]
        case PartObject(Some(text)) => [text]
        case _ => []
  }

  predicate HasContent(message: ChatMessage) {
    message.content.Some? && !message.content.value.ContentNull?
  }

  function ReasoningItems(message: ChatMessage): seq<TranscriptItem> {
    var text := ReasoningTextOf(message.reasoning);
    if text.Some? then [ReasoningItem([text.value])] else []
  }

  function MessageItems(message: ChatMessage): seq<TranscriptItem> {
    if HasContent(message) then [AssistantMessage(CompletedTexts(message.content.value))] else []
  }

  function ChoiceItems(choice: Choice): Items {
    if RefusalError(choice).Some? then Err(RefusalError(choice).value)
    else if choice.finishReason == Some("length") then Err(ContextWindowExceeded)
    else if choice.message.None? then Ok([])
    else
      var calls := WholeCallItems(OrEmpty(choice.message.value.toolCalls));
      if calls.Err? then calls
      else Ok(ReasoningItems(choice.message.value) + MessageItems(choice.message.value) + calls.value)
  }

  function ChoicesItems(choices: seq<Choice>): Items {
    if choices == [] then Ok([])
    else
      var n := |choices| - 1;
      var front := ChoicesItems(choices[..n]);
      if front.Err? then front
      else
        var last := ChoiceItems(choices[n]);
        if last.Err? then last else Ok(front.value + last.value)
  }

  method CompletedToolCalls(calls: seq<WholeCall>) returns (items: Items)
    ensures items == WholeCallItems(calls)
  {
    var output := [];
    assert calls[..0] == [];
    for index := 0 to |calls|
      invariant WholeCallItems(calls[..index]) == Ok(output)
    {
      assert calls[..index + 1][..index] == calls[..index];
      var item := WholeCallItem(index, calls[index]);
      if item.Err? {
        WholeCallErrorStays(calls, index + 1);
        return Err(item.error);
      }
      output := output + [item.value];
    }
    assert calls[..|calls|] == calls;
    items := Ok(output);
  }

  lemma {:induction false} WholeCallErrorStays(calls: seq<WholeCall>, k: nat)
    requires k <= |calls| && WholeCallItems(calls[..k]).Err?
    ensures WholeCallItems(calls) == WholeCallItems(calls[..k])
    decreases |calls|
  {
    hide WholeCallItem;
    if k < |calls| {
      assert calls[..|calls| - 1][..k] == calls[..k];
      WholeCallErrorStays(calls[..|calls| - 1], k);
    } else {
      assert calls[..k] == calls;
    }
  }

  lemma {:induction false} ChoiceErrorStays(choices: seq<Choice>, k: nat)
    requires k <= |choices| && ChoicesItems(choices[..k]).Err?
    ensures ChoicesItems(choices) == ChoicesItems(choices[..k])
    decreases |choices|
  {
    hide ChoiceItems;
    if k < |choices| {
      assert choices[..|choices| - 1][..k] == choices[..k];
      ChoiceErrorStays(choices[..|choices| - 1], k);
    } else {
      assert choices[..k] == choices;
    }
  }

  /** The output of a whole response is that of its choices, in order, or the first error. */
  method ParseCompletedResponse(body: CompletedBody) returns (r: Result<CompletedResponse, ApiError>)
    ensures body.choices.None? ==> r == Err(MISSING_CHOICES)
    ensures body.choices.Some? ==>
              r == match ChoicesItems(body.choices.value)
                   case Err(error) => Err(error)
                   case Ok(output) => Ok(CompletedResponse(OrEmpty(body.id), output, body.usage))
  {
    hide RefusalError, WholeCallItems;
    if body.choices.None? {
      return Err(MISSING_CHOICES);
    }
    var choices := body.choices.value;
    var output := [];
    assert choices[..0] == [];
    for i := 0 to |choices|
      invariant ChoicesItems(choices[..i]) == Ok(output)
    {
      assert choices[..i + 1][..i] == choices[..i];
      var choice := choices[i];
      var refusal := RefusalError(choice);
      if refusal.Some? {
        ChoiceErrorStays(choices, i + 1);
        return Err(refusal.value);
      }
      if choice.finishReason == Some("length") {
        ChoiceErrorStays(choices, i + 1);
        return Err(ContextWindowExceeded);
      }
      if choice.message.None? {
        assert output + [] == output;
        continue;
      }
      var message := choice.message.value;
      ghost var before := output;
      var reasoning := ReasoningTextOf(message.reasoning);
      if reasoning.Some? {
        output := output + [ReasoningItem([reasoning.value])];
      }
      if HasContent(message) {
        output := output + [AssistantMessage(CompletedTexts(message.content.value))];
      }
      assert output == before + (ReasoningItems(message) + MessageItems(message));
      var calls := CompletedToolCalls(OrEmpty(message.toolCalls));
      if calls.Err? {
        ChoiceErrorStays(choices, i + 1);
        return Err(calls.error);
      }
      output := output + calls.value;
      Associative(before, ReasoningItems(message) + MessageItems(message), calls.value);
    }
    assert choices[..|choices|] == choices;
    r := Ok(CompletedResponse(OrEmpty(body.id), output, body.usage));
  }
}
