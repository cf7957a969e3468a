/** What a whole chat response means, read off its fields: why it is refused, and otherwise its
    reasoning, messages and calls in order (src/llm/src/api/sse/chat.rs:483-634). */
module WholeReading {
  import opened Basics
  import opened Transcript
  import opened ToolCallTable
  import opened ChatWire
  import opened ChatFailures
  import opened CompletedChat

  // ---------------------------------------------------------------------------
  // Why a response is refused

  predicate IsNamed(call: WholeCall) {
    call.func.Some? && call.func.value.name.Some? && call.func.value.name.value != ""
  }

  /** The first call that cannot be read stands at `i`. */
  predicate FirstUnnamed(calls: seq<WholeCall>, i: nat) {
    i < |calls| && !IsNamed(calls[i]) && forall j :: 0 <= j < i ==> IsNamed(calls[j])
  }

  /** Why a call cannot be read. */
  function CallFault(call: WholeCall): ApiError {
    if call.func.None? then StreamError("chat completion tool call missing function")
    else StreamError("chat completion tool call missing function name")
  }

  function CallsIn(choice: Choice): seq<WholeCall> {
    if choice.message.Some? then OrEmpty(choice.message.value.toolCalls) else []
  }

  predicate AllNamed(calls: seq<WholeCall>) {
    forall i :: 0 <= i < |calls| ==> IsNamed(calls[i])
  }

  predicate IsReadable(choice: Choice) {
    !Fails(choice) && AllNamed(CallsIn(choice))
  }

  /** A choice refuses the response with this error: it fails, or a call has no function or name. */
  ghost predicate RefusesWith(choice: Choice, error: ApiError) {
    if Fails(choice) then FailsWith(choice, error)
    else exists i: nat :: FirstUnnamed(CallsIn(choice), i) && error == CallFault(CallsIn(choice)[i])
  }

  ghost predicate RefusedAt(choices: seq<Choice>, i: nat, error: ApiError) {
    i < |choices| && RefusesWith(choices[i], error) && forall j :: 0 <= j < i ==> IsReadable(choices[j])
  }

  lemma CallIs(index: nat, call: WholeCall)
    ensures WholeCallItem(index, call)
         == if IsNamed(call) then Ok(ReadCall(index, call)) else Err(CallFault(call))
  {
  }

  lemma {:induction false} CallsAre(calls: seq<WholeCall>)
    ensures AllNamed(calls) ==> WholeCallItems(calls) == Ok(ReadCalls(calls))
    ensures forall i: nat ::
      i < |calls| && FirstUnnamed(calls, i) ==> WholeCallItems(calls) == Err(CallFault(calls[i]))
  {
    hide WholeCallItem, IsNamed, CallFault, ReadCall, ReadCalls, FirstUnnamed, AllNamed;
    NoCalls();
    if calls != [] {
      var n := |calls| - 1;
      CallsAre(calls[..n]);
      CallIs(n, calls[n]);
      OneMoreCall(calls);
      forall i: nat | i < |calls| && FirstUnnamed(calls, i)
        ensures WholeCallItems(calls) == Err(CallFault(calls[i]))
      {
        FirstOfMore(calls, i);
        if i < n {
          assert calls[..n][i] == calls[i];
        }
      }
    }
  }

  lemma NoCalls()
    ensures ReadCalls([]) == [] && AllNamed([]) && forall i: nat :: !FirstUnnamed([], i)
  {
  }

  lemma OneMoreCall(calls: seq<WholeCall>)
    requires calls != []
    ensures var n := |calls| - 1;
            && ReadCalls(calls) == ReadCalls(calls[..n]) + [ReadCall(n, calls[n])]
            && (AllNamed(calls) <==> AllNamed(calls[..n]) && IsNamed(calls[n]))
  {
    hide IsNamed, ReadCall;
  }

  lemma FirstOfMore(calls: seq<WholeCall>, i: nat)
    requires FirstUnnamed(calls, i)
    ensures var n := |calls| - 1;
            && i <= n && (i < n ==> FirstUnnamed(calls[..n], i))
            && (i == n ==> AllNamed(calls[..n]) && !IsNamed(calls[n]))
  {
    hide IsNamed;
  }

  lemma {:induction false} UnnamedIsFound(calls: seq<WholeCall>) returns (i: nat)
    ensures AllNamed(calls) || FirstUnnamed(calls, i)
  {
    i := 0;
    if calls != [] {
      hide IsNamed;
      var n := |calls| - 1;
      i := UnnamedIsFound(calls[..n]);
      if AllNamed(calls[..n]) {
        i := n;
      }
    }
  }

  // ---------------------------------------------------------------------------
  // What it holds

  function ReadCall(index: nat, call: WholeCall): TranscriptItem {
    var name := if call.func.Some? then OrEmpty(call.func.value.name) else "";
    var arguments := if call.func.Some? then OrEmpty(call.func.value.arguments) else "";
    ToolCall(None, if call.id.Some? then call.id.value else "tool-call-" + Numeral(index), name,
             JsonArguments(arguments))
  }

  function ReadCalls(calls: seq<WholeCall>): seq<TranscriptItem> {
    seq(|calls|, i requires 0 <= i < |calls| => ReadCall(i, calls[i]))
  }

  /** A reasoning text: the value itself, else its text, else its content. */
  function ReadThought(value: Option<ReasoningValue>): seq<string> {
    match value
    case Some(ReasoningString(s)) => [s]
    case Some(ReasoningObject(Some(text), _)) => [text]
    case Some(ReasoningObject(None, Some(content))) => [content]
    case _ => []
  }

  /** The text of one part of a content list: a string, or the text of an object. */
  function ReadPart(part: ContentPart): seq<string> {
    match part
    case PartString(s) => [s]
    case PartObject(Some(text)) => [text]
    case _ => []
  }

  function ReadParts(parts: seq<ContentPart>): seq<string> {
    if parts == [] then [] else ReadPart(parts[0]) + ReadParts(parts[1..])
  }

  /** The message items of a content: none if it is absent or null. */
  function ReadContent(content: Option<ContentValue>): seq<TranscriptItem> {
    match content
    case None => []
    case Some(ContentNull) => []
    case Some(ContentString(s)) => [AssistantMessage([s])]
    case Some(ContentParts(parts)) => [AssistantMessage(ReadParts(parts))]
    case Some(OtherContent) => [AssistantMessage([])]
  }

  function ReadThoughts(texts: seq<string>): seq<TranscriptItem> {
    if texts == [] then [] else [ReasoningItem([texts[0]])] + ReadThoughts(texts[1..])
  }

  /** The items of a choice: its reasoning, its message and its calls. */
  function ReadChoice(choice: Choice): seq<TranscriptItem> {
    if choice.message.None? then []
    else
      var m := choice.message.value;
      ReadThoughts(ReadThought(m.reasoning)) + ReadContent(m.content) + ReadCalls(OrEmpty(m.toolCalls))
  }

  function ReadChoices(choices: seq<Choice>): seq<TranscriptItem> {
    if choices == [] then []
    else ReadChoices(choices[..|choices| - 1]) + ReadChoice(choices[|choices| - 1])
  }

  lemma {:induction false} ReadPartsSnoc(parts: seq<ContentPart>, last: ContentPart)
    ensures ReadParts(parts + [last]) == ReadParts(parts) + ReadPart(last)
  {
    hide ReadPart;
    if parts == [] {
      assert parts + [last] == [last] && [last][1..] == [];
    } else {
      assert (parts + [last])[1..] == parts[1..] + [last];
      ReadPartsSnoc(parts[1..], last);
      Associative(ReadPart(parts[0]), ReadParts(parts[1..]), ReadPart(last));
    }
  }

  lemma {:induction false} PartsAgree(parts: seq<ContentPart>)
    ensures WholePartTexts(parts) == ReadParts(parts)
  {
    if parts != [] {
      var n := |parts| - 1;
      PartsAgree(parts[..n]);
      ReadPartsSnoc(parts[..n], parts[n]);
      assert parts[..n] + [parts[n]] == parts;
    }
  }

  lemma MessageAgrees(message: ChatMessage)
    ensures ReasoningItems(message) == ReadThoughts(ReadThought(message.reasoning))
    ensures MessageItems(message) == ReadContent(message.content)
  {
    hide AssistantMessage, ReasoningItem;
    var texts := ReadThought(message.reasoning);
    assert texts != [] ==> texts[1..] == [];
    if message.content.Some? && message.content.value.ContentParts? {
      PartsAgree(message.content.value.parts);
    }
  }

  /** One choice: its items, or the error it refuses with. */
  lemma ChoiceIs(choice: Choice)
    ensures IsReadable(choice) ==> ChoiceItems(choice) == Ok(ReadChoice(choice))
    ensures forall error :: RefusesWith(choice, error) ==> ChoiceItems(choice) == Err(error)
    ensures !IsReadable(choice) ==> exists error :: RefusesWith(choice, error)
  {
    hide Fails, FailsWith, RefusalError, ReadCalls, AllNamed, WholeCallItems, ReasoningItems, MessageItems,
      ReadThoughts, ReadContent, CallFault, IsNamed;
    forall error
      ensures FailsWith(choice, error)
         <==> (RefusalError(choice) == Some(error)
               || (RefusalError(choice).None? && choice.finishReason == Some("length")
                   && error == ContextWindowExceeded))
    {
      RefusalOrLength(choice, error);
    }
    RefusalOrLength(choice, ContextWindowExceeded);
    FailsIff(choice);
    var calls := CallsIn(choice);
    CallsAre(calls);
    if choice.message.Some? {
      MessageAgrees(choice.message.value);
    } else {
      NoCalls();
    }
    if Fails(choice) {
      var error :| FailsWith(choice, error);
      assert RefusesWith(choice, error);
    } else if !AllNamed(calls) {
      var i := UnnamedIsFound(calls);
      FirstIsThere(calls, i);
      assert RefusesWith(choice, CallFault(calls[i]));
    }
    forall error | !Fails(choice) && RefusesWith(choice, error)
      ensures ChoiceItems(choice) == Err(error)
    {
      var i: nat :| FirstUnnamed(calls, i) && error == CallFault(calls[i]);
      FirstIsThere(calls, i);
    }
  }

  lemma FirstIsThere(calls: seq<WholeCall>, i: nat)
    requires FirstUnnamed(calls, i)
    ensures i < |calls|
  {
  }

  predicate AllReadable(choices: seq<Choice>) {
    forall i :: 0 <= i < |choices| ==> IsReadable(choices[i])
  }

  /** The first choice that cannot be read refuses with this error. */
  ghost predicate FirstRefusesWith(choices: seq<Choice>, error: ApiError) {
    exists i: nat :: RefusedAt(choices, i, error)
  }

  /** A whole response holds the items of its choices in order if all of them can be read, and is
      refused with the error of the first that cannot: its refusal, the content filter, the length,
      or a call without a function or a name. */
  lemma {:induction false} WholeResponseIs(choices: seq<Choice>)
    ensures AllReadable(choices) ==> ChoicesItems(choices) == Ok(ReadChoices(choices))
    ensures forall error :: FirstRefusesWith(choices, error) ==> ChoicesItems(choices) == Err(error)
    ensures AllReadable(choices) || exists error :: FirstRefusesWith(choices, error)
  {
    if choices != [] {
      hide ChoiceItems, IsReadable, RefusesWith, ReadChoice, FirstRefusesWith, AllReadable;
      var n := |choices| - 1;
      WholeResponseIs(choices[..n]);
      ChoiceIs(choices[n]);
      OneMoreReadable(choices);
      forall error
        ensures FirstRefusesWith(choices, error)
           <==> FirstRefusesWith(choices[..n], error)
                || (AllReadable(choices[..n]) && RefusesWith(choices[n], error))
      {
        RefusedLater(choices, error);
      }
      if !AllReadable(choices[..n]) {
        var error :| FirstRefusesWith(choices[..n], error);
        assert FirstRefusesWith(choices, error);
      } else if !IsReadable(choices[n]) {
        var error :| RefusesWith(choices[n], error);
        assert FirstRefusesWith(choices, error);
      }
    } else {
      NothingRefused();
    }
  }

  lemma NothingRefused()
    ensures AllReadable([]) && forall error :: !FirstRefusesWith([], error)
  {
  }

  lemma OneMoreReadable(choices: seq<Choice>)
    requires choices != []
    ensures var n := |choices| - 1;
            AllReadable(choices) <==> AllReadable(choices[..n]) && IsReadable(choices[n])
  {
    hide IsReadable;
  }

  /** Read the other way round: the errors of a whole response are those of its first unreadable
      choice, and there are none without. */
  lemma WholeResponseFailsIff(choices: seq<Choice>, error: ApiError)
    ensures ChoicesItems(choices) == Err(error) <==> FirstRefusesWith(choices, error)
  {
    hide ChoicesItems, ReadChoices, AllReadable, FirstRefusesWith;
    WholeResponseIs(choices);
  }

  lemma RefusedLater(choices: seq<Choice>, error: ApiError)
    requires choices != []
    ensures var n := |choices| - 1;
            FirstRefusesWith(choices, error)
            <==> FirstRefusesWith(choices[..n], error)
                 || (AllReadable(choices[..n]) && RefusesWith(choices[n], error))
  {
    hide IsReadable, RefusesWith;
    var n := |choices| - 1;
    if i: nat :| RefusedAt(choices, i, error) {
      if i < n {
        assert RefusedAt(choices[..n], i, error);
      } else {
        assert AllReadable(choices[..n]);
      }
    }
    if i: nat :| RefusedAt(choices[..n], i, error) {
      assert RefusedAt(choices, i, error);
    }
    if AllReadable(choices[..n]) && RefusesWith(choices[n], error) {
      assert forall j :: 0 <= j < n ==> choices[..n][j] == choices[j];
      assert RefusedAt(choices, n, error);
    }
  }
}
