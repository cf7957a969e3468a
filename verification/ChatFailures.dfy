/** When a choice of a chat response fails, read off its fields: a refusal, the content filter or
    the length (src/llm/src/api/sse/chat.rs:213-221, 369-372, 538-557). */
module ChatFailures {
  import opened Basics
  import opened Transcript
  import opened ChatWire

  /** A refusal with a character that is not white space. */
  predicate Speaks(refusal: Option<string>) {
    refusal.Some? && exists i :: 0 <= i < |refusal.value| && !IsWhitespace(refusal.value[i])
  }

  predicate MessageRefuses(choice: Choice) {
    choice.message.Some? && Speaks(choice.message.value.refusal)
  }

  predicate DeltaRefuses(choice: Choice) {
    choice.delta.Some? && Speaks(choice.delta.value.refusal)
  }

  /** The choice fails with this error: the refusal of its message, else of its delta, else the
      content filter, else the length. */
  predicate FailsWith(choice: Choice, error: ApiError) {
    if MessageRefuses(choice) then error == InvalidRequest(choice.message.value.refusal.value)
    else if DeltaRefuses(choice) then error == InvalidRequest(choice.delta.value.refusal.value)
    else if choice.finishReason == Some("content_filter") then
      error == InvalidRequest("chat completion was blocked by the provider content filter")
    else choice.finishReason == Some("length") && error == ContextWindowExceeded
  }

  predicate Fails(choice: Choice) {
    || MessageRefuses(choice) || DeltaRefuses(choice)
    || choice.finishReason == Some("content_filter") || choice.finishReason == Some("length")
  }

  lemma {:induction false} BlankIsAllWhite(s: string)
    ensures TrimStart(s) == [] <==> forall i :: 0 <= i < |s| ==> IsWhitespace(s[i])
  {
    if s != [] {
      BlankIsAllWhite(s[1..]);
      assert forall i :: 0 < i < |s| ==> s[i] == s[1..][i - 1];
      assert IsWhitespace(s[0]) && (forall i :: 0 <= i < |s| - 1 ==> IsWhitespace(s[1..][i]))
        ==> forall i :: 0 <= i < |s| ==> IsWhitespace(s[i]);
    }
  }

  lemma {:induction false} TrimmedStartStays(s: string)
    ensures TrimStart(s) != [] ==> !IsWhitespace(TrimStart(s)[0])
  {
    if s != [] && IsWhitespace(s[0]) {
      TrimmedStartStays(s[1..]);
    }
  }

  lemma {:induction false} TrimEndKeepsFirst(s: string)
    requires s != [] && !IsWhitespace(s[0])
    ensures TrimEnd(s) != []
  {
    if IsWhitespace(s[|s| - 1]) {
      TrimEndKeepsFirst(s[..|s| - 1]);
    }
  }

  lemma SpeaksIff(refusal: Option<string>)
    ensures Speaks(refusal) <==> Refuses(refusal)
  {
    if refusal.Some? {
      hide IsWhitespace, TrimStart, TrimEnd;
      var s := refusal.value;
      BlankIsAllWhite(s);
      TrimmedStartStays(s);
      if TrimStart(s) != [] {
        TrimEndKeepsFirst(TrimStart(s));
      } else {
        TrimmedNothing();
      }
    }
  }

  lemma TrimmedNothing()
    ensures TrimEnd([]) == []
  {
  }

  /** The code's checks find exactly these failures. */
  lemma RefusalOrLength(choice: Choice, error: ApiError)
    ensures FailsWith(choice, error)
       <==> (RefusalError(choice) == Some(error)
             || (RefusalError(choice).None? && choice.finishReason == Some("length")
                 && error == ContextWindowExceeded))
    ensures Fails(choice) <==> RefusalError(choice).Some? || choice.finishReason == Some("length")
  {
    hide Speaks, Refuses;
    if choice.message.Some? {
      SpeaksIff(choice.message.value.refusal);
    }
    if choice.delta.Some? {
      SpeaksIff(choice.delta.value.refusal);
    }
  }

  lemma FailsIff(choice: Choice)
    ensures Fails(choice) <==> exists error :: FailsWith(choice, error)
  {
    if Fails(choice) {
      var error := if MessageRefuses(choice) then InvalidRequest(choice.message.value.refusal.value)
                   else if DeltaRefuses(choice) then InvalidRequest(choice.delta.value.refusal.value)
                   else if choice.finishReason == Some("content_filter") then InvalidRequest(CONTENT_FILTER_MESSAGE)
                   else ContextWindowExceeded;
      assert FailsWith(choice, error);
    }
  }
}
