/** Which chat responses are tried again: a stream that breaks or idles before its finish reason is
    a disconnection, which is retried; a refusal, the content filter or the length is final
    (src/llm/src/error.rs:69-90, src/llm/src/runtime.rs:454-605,
    src/llm/src/api/sse/chat.rs:120-221). */
module ChatRetries {
  import opened Basics
  import opened Transcript
  import opened ChatWire
  import opened ChatAssembler
  import opened ChatProtocol
  import opened SemanticEvents
  import opened EndToEnd
  import opened ChatAgreement
  import Aggregator
  import ChatEnding
  import Retry
  import RetryRules

  /** A response that is streamed, aggregated or raw. */
  predicate IsStream(c: ChatAttempt) {
    c.AggregatedStream? || c.RawStream?
  }

  function PollsIn(c: ChatAttempt): seq<Poll>
    requires IsStream(c)
  {
    c.polls
  }

  /** How an error of a stream counts for the retry loop. */
  predicate CountsAs(error: ApiError, failure: Retry.LlmError) {
    match error
    case StreamError(message) => failure == Retry.Disconnected(message)
    case ContextWindowExceeded => failure.OtherError?
    case InvalidRequest(_) => failure.OtherError?
  }

  /** Aggregation keeps the end of a stream. */
  lemma LastIsKept(log: seq<Output>)
    requires log != [] && IsTerminal(log[|log| - 1])
    ensures var out := Aggregator.Aggregate(Aggregator.AggregatedOnly, Aggregator.NO_TOTALS, log).1;
            out != [] && out[|out| - 1] == log[|log| - 1]
  {
    hide Aggregator.SummaryItems, Aggregator.FirstOutputText;
  }

  /** The adapted stream ends with the error its log ends with, and has no other. */
  lemma AdaptedFails(log: seq<Output>, error: ApiError) returns (failure: Retry.LlmError)
    requires EndsLog(log) && log[|log| - 1] == Err(error)
    ensures RetryRules.FailsWith(Retry.Streamed(AdaptLog(Handles(None, 0), log).1), failure)
    ensures CountsAs(error, failure)
  {
    hide SaidOutputs, Kernel.TurnItems, SaidEvents, DoneItems, Adapt, AdaptLog;
    failure := ErrorOf(error);
    var start, n := Handles(None, 0), |log| - 1;
    var said := SaidAdapts(start, log[..n]);
    AdaptLogAppend(start, log[..n], [log[n]]);
    AdaptLogOne(AdaptLog(start, log[..n]).0, log[n]);
    assert log[..n] + [log[n]] == log;
    var outputs := AdaptLog(start, log).1;
    assert outputs == Retry.Oks(said) + [Err(failure)];
    assert RetryRules.FirstErrorAt(outputs, |said|) && outputs[|said|] == Err(failure);
  }

  /** A streamed attempt fails as its polls do. */
  lemma StreamFails(c: ChatAttempt, k: nat, error: ApiError) returns (failure: Retry.LlmError)
    requires IsStream(c)
    requires ChatEnding.FailsAt(PollsIn(c), k, error)
    ensures RetryRules.FailsWith(AttemptOf(c), failure) && CountsAs(error, failure)
  {
    hide ProcessAll, ChatEnding.FailsAt, EndsLog, AdaptLog, RetryRules.FailsWith, CountsAs;
    var polls := PollsIn(c);
    ChatEnding.EndsWithErrorIff(polls, error);
    LogEnds(c);
    if c.AggregatedStream? {
      LastIsKept(ProcessAll(polls).sent);
    }
    failure := AdaptedFails(LogOf(c).value, error);
  }

  /** Whatever the limit: an attempt whose stream is refused, filtered or cut off by its length
      behind content only is the last of its turn, and the last thing sent is its error. */
  lemma RefusalEndsTurn(g: Retry.Setting, streams: nat -> ChatAttempt, free: bool, k: nat, j: nat, error: ApiError)
    returns (failure: Retry.LlmError)
    requires k < AttemptsMade(g, streams, free) && IsStream(streams(k))
    requires ChatEnding.FailsAt(PollsIn(streams(k)), j, error) && !error.StreamError?
    ensures failure.OtherError?
    ensures var (q, made) := Retry.Run(g, Attempts(streams), free);
            made == k + 1 && q.log != [] && q.log[|q.log| - 1] == Err(failure)
  {
    hide Retry.RunFrom, ChatEnding.FailsAt, RetryRules.FailsWith, AttemptOf;
    failure := StreamFails(streams(k), j, error);
    RetryRules.FinalErrorEndsRun(g, Attempts(streams), Retry.Start(free), 0, k, failure);
  }

  /** An attempt whose stream breaks or idles behind content only is followed by another one, as
      long as the limit allows two retries for each attempt so far. */
  lemma BrokenStreamIsRetried(g: Retry.Setting, streams: nat -> ChatAttempt, free: bool, k: nat, j: nat,
                              message: string)
    requires k < AttemptsMade(g, streams, free) && IsStream(streams(k))
    requires g.delivery.Streaming? && 2 * k + 2 <= g.limit
    requires ChatEnding.FailsAt(PollsIn(streams(k)), j, StreamError(message))
    ensures k + 1 < AttemptsMade(g, streams, free)
  {
    hide Retry.RunFrom, ChatEnding.FailsAt, RetryRules.FailsWith, AttemptOf, RetryRules.BringsCompletion;
    var failure := StreamFails(streams(k), j, StreamError(message));
    NoCompletion(streams(k), failure);
    RetryRules.TransientErrorIsRetried(g, Attempts(streams), free, k, failure);
  }

  /** A stream that fails has brought no completion. */
  lemma NoCompletion(c: ChatAttempt, failure: Retry.LlmError)
    requires IsStream(c) && RetryRules.FailsWith(AttemptOf(c), failure)
    ensures !RetryRules.BringsCompletion(AttemptOf(c))
  {
    hide LogOf, AdaptLog, Kernel.TurnItems, AttemptItems, Retry.Events, AttemptShape;
    if LogOf(c).Ok? {
      var outputs := AttemptOf(c).outputs;
      RetryRules.FirstErrorIs(outputs);
      RetryRules.FailureIs(AttemptOf(c), failure);
      NothingCompleted(c);
    }
  }

  lemma NothingCompleted(c: ChatAttempt)
    requires LogOf(c).Ok?
    ensures var outputs := AttemptOf(c).outputs;
            |Retry.Events(outputs)| < |outputs| ==> !Retry.HasCompleted(Retry.Events(outputs))
  {
    hide SaidOutputs, Kernel.TurnItems, SaidEvents, DoneItems, Adapt, AdaptLog, LogOf;
    LogEnds(c);
    var start, log := Handles(None, 0), LogOf(c).value;
    var n := |log| - 1;
    var said := SaidAdapts(start, log[..n]);
    AdaptLogAppend(start, log[..n], [log[n]]);
    AdaptLogOne(AdaptLog(start, log[..n]).0, log[n]);
    assert log[..n] + [log[n]] == log;
    var outputs := AdaptLog(start, log).1;
    if log[n].Err? {
      StopsAtError(outputs, said, ErrorOf(log[n].error));
      SaidNeverCompletes(said);
    } else {
      var end := Adapt(AdaptLog(start, log[..n]).0, log[n].value).1;
      Retry.OksAppend(said, end);
      NeverStops(outputs, said + end);
    }
  }

  lemma SaidNeverCompletes(said: seq<TurnEvent>)
    requires SaidEvents(said)
    ensures !Retry.HasCompleted(said)
  {
    forall i | 0 <= i < |said|
      ensures !said[i].TurnCompleted?
    {
      assert SaidEvent(said[i]);
    }
  }
}
