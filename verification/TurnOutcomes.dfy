/** What a turn reports, by the events that decide it: its last message, its token total, how it
    fails, and the text deltas it sends (src/core/src/kernel.rs:99-163,
    src/core/src/processor.rs:52-260). */
module TurnOutcomes {
  import opened Basics
  import opened Transcript
  import opened SemanticEvents
  import opened TurnKernel
  import Log = SessionLog

  // ---------------------------------------------------------------------------
  // The last message

  predicate HasOutput(content: seq<ContentItem>) {
    exists i :: 0 <= i < |content| && content[i].OutputText?
  }

  /** An assistant message with this output text, of at least one entry, is completed. */
  predicate Says(e: TurnEvent, text: string) {
    && e.ItemCompleted? && e.output.item.Message? && e.output.item.role == "assistant"
    && HasOutput(e.output.item.content) && text == JoinOutputText(e.output.item.content)
  }

  predicate SaysSomething(e: TurnEvent) {
    e.ItemCompleted? && e.output.item.Message? && e.output.item.role == "assistant"
    && HasOutput(e.output.item.content)
  }

  lemma {:induction false} OutputSnoc(content: seq<ContentItem>, last: ContentItem)
    ensures JoinOutputText(content + [last]) == JoinOutputText(content) + (if last.OutputText? then last.text else [])
  {
    if content == [] {
      assert content + [last] == [last] && [last][1..] == [];
    } else {
      assert (content + [last])[1..] == content[1..] + [last];
      OutputSnoc(content[1..], last);
    }
  }

  lemma {:induction false} OutputIs(content: seq<ContentItem>)
    ensures AssistantOutputText(content) == if HasOutput(content) then Some(JoinOutputText(content)) else None
    ensures !HasOutput(content) ==> JoinOutputText(content) == []
  {
    if content != [] {
      var n := |content| - 1;
      OutputIs(content[..n]);
      OutputSnoc(content[..n], content[n]);
      assert content[..n] + [content[n]] == content;
      assert HasOutput(content) <==> HasOutput(content[..n]) || content[n].OutputText?;
      assert JoinOutputText(content[..n]) + [] == JoinOutputText(content[..n]);
    }
  }

  lemma MessageIs(e: TurnEvent)
    ensures SaysSomething(e) <==> MessageOf(e).Some?
    ensures forall text :: Says(e, text) <==> MessageOf(e) == Some(text)
  {
    hide HasOutput, AssistantOutputText, JoinOutputText;
    if e.ItemCompleted? && IsAssistant(e.output.item) {
      OutputIs(e.output.item.content);
    }
  }

  /** The message reported is the output text of the last assistant message that has any. */
  lemma {:induction false} LastMessageIff(events: seq<TurnEvent>, text: string)
    ensures LastMessage(events) == Some(text)
       <==> exists i :: 0 <= i < |events| && SpeaksLastAt(events, i) && Says(events[i], text)
  {
    if events != [] {
      hide Says, SaysSomething, MessageOf;
      var n := |events| - 1;
      LastMessageIff(events[..n], text);
      MessageIs(events[n]);
      if SaysSomething(events[n]) {
        assert SpeaksLastAt(events, n);
      } else {
        assert forall i :: 0 <= i < n ==> (SpeaksLastAt(events, i) <==> SpeaksLastAt(events[..n], i));
      }
    }
  }

  predicate SpeaksLastAt(events: seq<TurnEvent>, i: nat) {
    i < |events| && SaysSomething(events[i]) && forall j :: i < j < |events| ==> !SaysSomething(events[j])
  }

  // ---------------------------------------------------------------------------
  // The token total

  predicate CompletesLastAt(events: seq<TurnEvent>, i: nat) {
    i < |events| && events[i].TurnCompleted? && forall j :: i < j < |events| ==> !events[j].TurnCompleted?
  }

  /** The total reported is that of the usage of the last completion, if it has one. */
  lemma {:induction false} TotalTokensIff(events: seq<TurnEvent>, total: int)
    ensures TotalTokens(events) == Some(total)
       <==> exists i :: 0 <= i < |events| && CompletesLastAt(events, i)
                        && events[i].usage.Some? && events[i].usage.value.total == total
  {
    if events != [] {
      var n := |events| - 1;
      TotalTokensIff(events[..n], total);
      if events[n].TurnCompleted? {
        assert CompletesLastAt(events, n);
      } else {
        assert forall i :: 0 <= i < n ==> (CompletesLastAt(events, i) <==> CompletesLastAt(events[..n], i));
      }
    }
  }

  // ---------------------------------------------------------------------------
  // Failure

  /** The first poll that brings no event stands at `i`, with no completion before. */
  predicate BreaksAt(polls: seq<StreamPoll>, i: nat) {
    && i < |polls| && !polls[i].Event?
    && forall j :: 0 <= j < i ==> polls[j].Event? && !polls[j].event.TurnCompleted?
  }

  predicate BringsOnlyEvents(polls: seq<StreamPoll>) {
    forall j :: 0 <= j < |polls| ==> polls[j].Event? && !polls[j].event.TurnCompleted?
  }

  predicate CompletesAt(polls: seq<StreamPoll>, i: nat) {
    && i < |polls| && polls[i].Event? && polls[i].event.TurnCompleted?
    && forall j :: 0 <= j < i ==> polls[j].Event? && !polls[j].event.TurnCompleted?
  }

  /** A turn that does not complete fails as the first poll without an event says: with the error of
      its stream, aborted if its token is cancelled, or because the stream closed. */
  lemma {:induction false} StreamFailureIs(polls: seq<StreamPoll>)
    ensures ReachesCompletion(polls) <==> exists i :: 0 <= i < |polls| && CompletesAt(polls, i)
    ensures !ReachesCompletion(polls) && BringsOnlyEvents(polls) ==> StreamFailure(polls) == StreamClosed
    ensures forall i :: 0 <= i < |polls| && BreaksAt(polls, i) ==>
              && !ReachesCompletion(polls)
              && StreamFailure(polls) == match polls[i]
                                         case Failed(message) => RuntimeError(message)
                                         case Cancelled => Aborted
                                         case Closed => StreamClosed
  {
    if i :| 0 <= i < |polls| && CompletesAt(polls, i) {
      ReadCompletes(polls, i + 1);
    } else if i :| 0 <= i < |polls| && BreaksAt(polls, i) {
      ReadStops(polls, i);
    } else {
      OnlyEvents(polls, 0);
      ReadStops(polls, |polls|);
    }
    forall i | 0 <= i < |polls| && BreaksAt(polls, i)
      ensures |EventsRead(polls)| == i && !ReachesCompletion(polls)
    {
      ReadStops(polls, i);
    }
  }

  lemma {:induction false} OnlyEvents(polls: seq<StreamPoll>, i: nat)
    requires i <= |polls| && forall j :: 0 <= j < i ==> polls[j].Event? && !polls[j].event.TurnCompleted?
    requires forall k :: 0 <= k < |polls| ==> !CompletesAt(polls, k) && !BreaksAt(polls, k)
    ensures BringsOnlyEvents(polls)
    decreases |polls| - i
  {
    if i < |polls| {
      assert !CompletesAt(polls, i) && !BreaksAt(polls, i);
      OnlyEvents(polls, i + 1);
    }
  }

  // ---------------------------------------------------------------------------
  // The text sent

  function TextDeltas(events: seq<TurnEvent>): seq<string> {
    if events == [] then []
    else
      (match events[0]
       case TurnTextDelta(_, delta) => [delta]
       case _ => []) + TextDeltas(events[1..])
  }

  lemma {:induction false} TextDeltasSnoc(events: seq<TurnEvent>, e: TurnEvent)
    ensures TextDeltas(events + [e]) == TextDeltas(events) + if e.TurnTextDelta? then [e.delta] else []
  {
    if events == [] {
      assert events + [e] == [e] && [e][1..] == [];
    } else {
      assert (events + [e])[1..] == events[1..] + [e];
      TextDeltasSnoc(events[1..], e);
    }
  }

  /** The text deltas that a turn sends to its session are those it has read, in order. */
  lemma {:induction false} TextIsSent(events: seq<TurnEvent>)
    ensures Log.Deltas(Sent(events)) == TextDeltas(events)
  {
    hide TextDeltas, SentFor, Log.Deltas;
    if events == [] {
      NoDeltas();
    } else {
      var n := |events| - 1;
      var sent, more := Sent(events[..n]), SentFor(events[n]);
      TextIsSent(events[..n]);
      TextDeltasSnoc(events[..n], events[n]);
      assert events[..n] + [events[n]] == events;
      SentForOne(events[n]);
      SentOneMore(sent, more);
      assert Sent(events) == sent + more;
    }
  }

  lemma NoDeltas()
    ensures TextDeltas([]) == [] && Log.Deltas([]) == []
  {
  }

  /** It sends no event that the loop around it sends. */
  lemma {:induction false} SendsTurnEvents(events: seq<TurnEvent>)
    ensures forall i :: 0 <= i < |Sent(events)| ==> Sent(events)[i].TextDelta? || Sent(events)[i].OtherTurnEvent?
  {
    if events != [] {
      hide SentFor;
      var n := |events| - 1;
      SendsTurnEvents(events[..n]);
      SentForOne(events[n]);
    }
  }

  lemma SentForOne(e: TurnEvent)
    ensures var more := SentFor(e);
            && |more| <= 1 && (more != [] ==> more[0].TextDelta? || more[0].OtherTurnEvent?)
            && (e.TurnTextDelta? <==> more != [] && more[0].TextDelta?)
            && (e.TurnTextDelta? ==> more[0].delta == e.delta)
  {
  }

  lemma SentOneMore(sent: seq<Log.SessionEvent>, more: seq<Log.SessionEvent>)
    requires |more| <= 1
    ensures Log.Deltas(sent + more)
         == Log.Deltas(sent) + if more != [] && more[0].TextDelta? then [more[0].delta] else []
  {
    if more == [] {
      assert sent + more == sent;
    } else {
      assert (sent + more)[..|sent|] == sent;
    }
  }
}
