/** Which failures a turn survives, by the kind of the error alone: a final error is the last thing
    a run sends, a transient one leads to another attempt while retries are left, and what is
    announced and waited for in between (src/llm/src/runtime.rs:454-605). */
module RetryRules {
  import opened Basics
  import opened SemanticEvents
  import opened Retry

  // ---------------------------------------------------------------------------
  // How an attempt fails, and which failures are final

  /** The attempt fails with this error: it is refused, its stream brings the error first, or its
      stream ends without a completion. */
  predicate FailsWith(a: Attempt, error: LlmError) {
    match a
    case Refused(e) => e == error
    case Streamed(outputs) =>
      || (exists i :: 0 <= i < |outputs| && FirstErrorAt(outputs, i) && outputs[i] == Err(error))
      || (NeverErrs(outputs) && !Completes(outputs)
          && error == Disconnected("stream closed before response.completed"))
  }

  predicate FirstErrorAt(outputs: seq<Sent>, i: nat) {
    i < |outputs| && outputs[i].Err? && forall j :: 0 <= j < i ==> outputs[j].Ok?
  }

  predicate NeverErrs(outputs: seq<Sent>) {
    forall j :: 0 <= j < |outputs| ==> outputs[j].Ok?
  }

  /** The stream brings a completion before any error. */
  predicate Completes(outputs: seq<Sent>) {
    exists i :: 0 <= i < |outputs| && outputs[i].Ok? && outputs[i].value.TurnCompleted?
                && forall j :: 0 <= j < i ==> outputs[j].Ok?
  }

  predicate BringsCompletion(a: Attempt) {
    a.Streamed? && Completes(a.outputs)
  }

  /** Errors of other kinds are never retried; without streaming only refusals marked retryable are. */
  predicate IsFinal(delivery: Delivery, a: Attempt, error: LlmError) {
    match error
    case OtherError(_) => true
    case Retryable(_, _) => delivery.NonStreaming? && a.Streamed?
    case Disconnected(_) => delivery.NonStreaming?
    case RequestTimeout => delivery.NonStreaming?
  }

  /** What the run has done before attempt `k`. */
  function Before(g: Setting, attempts: nat -> Attempt, p: Progress, n: nat, k: nat): (r: Progress)
    requires p.retries <= g.limit && n <= k
    ensures r.retries <= g.limit
    decreases k - n
  {
    if n == k then p else Before(g, attempts, AfterAttempt(g, p, attempts(n)).1, n + 1, k)
  }

  lemma {:induction false} FirstErrorIs(outputs: seq<Sent>)
    ensures var n := |Events(outputs)|;
            && (forall i :: 0 <= i < n ==> outputs[i] == Ok(Events(outputs)[i]))
            && (n < |outputs| ==> FirstErrorAt(outputs, n)) && (n == |outputs| ==> NeverErrs(outputs))
            && (HasCompleted(Events(outputs)) <==> Completes(outputs))
  {
    EventsAreFront(outputs);
    var events := Events(outputs);
    if i :| 0 <= i < |events| && events[i].TurnCompleted? {
      assert outputs[i].Ok? && outputs[i].value.TurnCompleted?;
    }
    if Completes(outputs) {
      var i :| 0 <= i < |outputs| && outputs[i].Ok? && outputs[i].value.TurnCompleted?
               && forall j :: 0 <= j < i ==> outputs[j].Ok?;
      assert i < |events| && events[i].TurnCompleted?;
    }
  }

  lemma {:induction false} EventsAreFront(outputs: seq<Sent>)
    ensures forall i :: 0 <= i < |Events(outputs)| ==> outputs[i] == Ok(Events(outputs)[i])
    ensures |Events(outputs)| < |outputs| ==> outputs[|Events(outputs)|].Err?
  {
    if outputs != [] && outputs[0].Ok? {
      EventsAreFront(outputs[1..]);
      var rest := Events(outputs[1..]);
      assert Events(outputs) == [outputs[0].value] + rest;
      assert forall i :: 0 < i <= |rest| ==> outputs[i] == outputs[1..][i - 1];
    }
  }

  /** The one error that an attempt fails with. */
  lemma FailureIs(a: Attempt, error: LlmError)
    requires FailsWith(a, error)
    ensures a.Streamed? ==>
              var n := |Events(a.outputs)|;
              if n < |a.outputs| then a.outputs[n] == Err(error)
              else error == CLOSED_EARLY && !HasCompleted(Events(a.outputs))
  {
    if a.Streamed? {
      FirstErrorIs(a.outputs);
      var n := |Events(a.outputs)|;
      if i :| 0 <= i < |a.outputs| && FirstErrorAt(a.outputs, i) && a.outputs[i] == Err(error) {
        assert i == n;
      }
    }
  }

  // ---------------------------------------------------------------------------
  // Final errors

  /** An attempt with a final error ends the run, and the error is the last thing sent. */
  lemma FinalErrorStops(g: Setting, p: Progress, a: Attempt, error: LlmError)
    requires p.retries <= g.limit && FailsWith(a, error) && IsFinal(g.delivery, a, error)
    ensures var (again, q) := AfterAttempt(g, p, a);
            !again && q.log != [] && q.log[|q.log| - 1] == Err(error)
  {
    FailureIs(a, error);
    hide Events, HasCompleted, Oks, FailsWith;
  }

  /** Over every run: an attempt that fails with a final error is the last one, and its error is
      the last thing sent. */
  lemma {:induction false} FinalErrorEndsRun(g: Setting, attempts: nat -> Attempt, p: Progress, n: nat, k: nat,
                                             error: LlmError)
    requires p.retries <= g.limit && n <= k < RunFrom(g, attempts, p, n).1
    requires FailsWith(attempts(k), error) && IsFinal(g.delivery, attempts(k), error)
    ensures var (q, made) := RunFrom(g, attempts, p, n);
            made == k + 1 && q.log != [] && q.log[|q.log| - 1] == Err(error)
    decreases k - n
  {
    hide AfterAttempt, Budget, FailsWith, IsFinal;
    if n == k {
      FinalErrorStops(g, p, attempts(n), error);
    } else {
      FinalErrorEndsRun(g, attempts, AfterAttempt(g, p, attempts(n)).1, n + 1, k, error);
    }
  }

  // ---------------------------------------------------------------------------
  // Transient errors

  /** The retries that an attempt takes: one for a refusal, two at most for a stream. */
  lemma AttemptTakes(g: Setting, p: Progress, a: Attempt)
    requires p.retries <= g.limit
    ensures AfterAttempt(g, p, a).1.retries <= p.retries + (if a.Refused? then 1 else 2)
  {
    hide Budget, Events, HasCompleted;
  }

  /** With the retries for it left, an attempt that fails with an error that is not final is not
      the last. */
  lemma TransientErrorGoesOn(g: Setting, p: Progress, a: Attempt, error: LlmError)
    requires FailsWith(a, error) && !IsFinal(g.delivery, a, error) && !BringsCompletion(a)
    requires p.retries + (if a.Refused? then 1 else 2) <= g.limit
    ensures AfterAttempt(g, p, a).0
  {
    FailureIs(a, error);
    if a.Streamed? {
      FirstErrorIs(a.outputs);
    }
    hide Events, HasCompleted, Oks, FailsWith, Completes;
  }

  lemma {:induction false} RetriesLeft(g: Setting, attempts: nat -> Attempt, p: Progress, n: nat, k: nat)
    requires p.retries <= g.limit && n <= k
    ensures Before(g, attempts, p, n, k).retries <= p.retries + 2 * (k - n)
    decreases k - n
  {
    hide AfterAttempt, Budget;
    if n < k {
      AttemptTakes(g, p, attempts(n));
      RetriesLeft(g, attempts, AfterAttempt(g, p, attempts(n)).1, n + 1, k);
    }
  }

  lemma {:induction false} GoesOnFrom(g: Setting, attempts: nat -> Attempt, p: Progress, n: nat, k: nat)
    requires p.retries <= g.limit && n <= k < RunFrom(g, attempts, p, n).1
    requires AfterAttempt(g, Before(g, attempts, p, n, k), attempts(k)).0
    ensures k + 1 < RunFrom(g, attempts, p, n).1
    decreases k - n
  {
    hide AfterAttempt, Budget;
    if n < k {
      GoesOnFrom(g, attempts, AfterAttempt(g, p, attempts(n)).1, n + 1, k);
    }
  }

  /** Over every run: an attempt that fails with an error that is not final, and before any
      completion, is followed by another one as long as the limit allows two retries for each
      attempt so far. */
  lemma TransientErrorIsRetried(g: Setting, attempts: nat -> Attempt, free: bool, k: nat, error: LlmError)
    requires k < Run(g, attempts, free).1 && 2 * k + 2 <= g.limit
    requires FailsWith(attempts(k), error) && !IsFinal(g.delivery, attempts(k), error) && !BringsCompletion(attempts(k))
    ensures k + 1 < Run(g, attempts, free).1
  {
    hide RunFrom, AfterAttempt, FailsWith, IsFinal, BringsCompletion, Before;
    RetriesLeft(g, attempts, Start(free), 0, k);
    TransientErrorGoesOn(g, Before(g, attempts, Start(free), 0, k), attempts(k), error);
    GoesOnFrom(g, attempts, Start(free), 0, k);
  }

  // ---------------------------------------------------------------------------
  // What is said and waited in between

  /** A request is refused with an error that is not final. */
  predicate RefusedTransiently(delivery: Delivery, a: Attempt) {
    a.Refused? && !IsFinal(delivery, a, a.error)
  }

  function RefusalOf(a: Attempt): LlmError {
    if a.Refused? then a.error else CLOSED_EARLY
  }

  function Reconnecting(j: nat, limit: nat): Sent {
    Ok(RuntimeNotice("Reconnecting... " + Numeral(j) + "/" + Numeral(limit)))
  }

  /** The wait before retry `j`: what the server asked for, or the default delay. */
  predicate WaitsFor(delay: Delay, error: LlmError, j: nat) {
    match error
    case Retryable(_, Some(ms)) => delay == Given(ms)
    case _ => delay == Backoff(BackoffMillis(j))
  }

  /** Notices and waits of the first `m` retries. */
  predicate TellsRetries(g: Setting, attempts: nat -> Attempt, p: Progress, m: nat) {
    && |p.log| == m == |p.delays| == p.retries && p.asks == 0
    && (forall j :: 0 <= j < m ==> p.log[j] == Reconnecting(j + 1, g.limit))
    && (forall j :: 0 <= j < m ==> WaitsFor(p.delays[j], RefusalOf(attempts(j)), j + 1))
  }

  lemma RetryTells(g: Setting, attempts: nat -> Attempt, p: Progress, m: nat)
    requires m < g.limit && TellsRetries(g, attempts, p, m) && RefusedTransiently(g.delivery, attempts(m))
    ensures var (again, q) := AfterAttempt(g, p, attempts(m));
            again && TellsRetries(g, attempts, q, m + 1) && q.free == p.free
  {
    hide BackoffMillis, Numeral;
  }

  lemma {:induction false} RetriesTell(g: Setting, attempts: nat -> Attempt, free: bool, m: nat)
    requires m <= g.limit && forall j :: 0 <= j < m ==> RefusedTransiently(g.delivery, attempts(j))
    ensures var p := Before(g, attempts, Start(free), 0, m);
            TellsRetries(g, attempts, p, m) && p.free == free
    ensures m < Run(g, attempts, free).1
  {
    hide AfterAttempt, Budget, RefusedTransiently, TellsRetries, RunFrom, Before;
    if m == 0 {
      NothingBefore(g, attempts, free);
    } else {
      RetriesTell(g, attempts, free, m - 1);
      var p := Before(g, attempts, Start(free), 0, m - 1);
      RetryTells(g, attempts, p, m - 1);
      BeforeNext(g, attempts, Start(free), 0, m - 1);
      GoesOnFrom(g, attempts, Start(free), 0, m - 1);
    }
  }

  lemma NothingBefore(g: Setting, attempts: nat -> Attempt, free: bool)
    ensures Before(g, attempts, Start(free), 0, 0) == Start(free) && TellsRetries(g, attempts, Start(free), 0)
    ensures 0 < Run(g, attempts, free).1
  {
  }

  lemma {:induction false} BeforeNext(g: Setting, attempts: nat -> Attempt, p: Progress, n: nat, k: nat)
    requires p.retries <= g.limit && n <= k
    ensures Before(g, attempts, p, n, k + 1) == AfterAttempt(g, Before(g, attempts, p, n, k), attempts(k)).1
    decreases k - n
  {
    hide AfterAttempt, Budget;
    if n < k {
      BeforeNext(g, attempts, AfterAttempt(g, p, attempts(n)).1, n + 1, k);
    } else {
      var q := AfterAttempt(g, p, attempts(n)).1;
      assert Before(g, attempts, q, n + 1, k + 1) == q;
    }
  }

  /** What a run has sent stays sent. */
  lemma {:induction false} LogStays(g: Setting, attempts: nat -> Attempt, p: Progress, n: nat, k: nat)
    requires p.retries <= g.limit && n <= k < RunFrom(g, attempts, p, n).1
    ensures Before(g, attempts, p, n, k).log <= RunFrom(g, attempts, p, n).0.log
    ensures Before(g, attempts, p, n, k).delays <= RunFrom(g, attempts, p, n).0.delays
    decreases RunFrom(g, attempts, p, n).1 - n
  {
    hide AfterAttempt, Budget;
    AttemptAppends(g, p, attempts(n));
    var (again, q) := AfterAttempt(g, p, attempts(n));
    if again {
      if n < k {
        LogStays(g, attempts, q, n + 1, k);
      } else {
        LogStays(g, attempts, q, n + 1, n + 1);
      }
    }
  }

  lemma AttemptAppends(g: Setting, p: Progress, a: Attempt)
    requires p.retries <= g.limit
    ensures p.log <= AfterAttempt(g, p, a).1.log && p.delays <= AfterAttempt(g, p, a).1.delays
  {
    hide Budget, Events, HasCompleted, Oks, Charge;
    if a.Refused? {
      ChargeAppends(g, p, a.error);
    } else {
      var events := Events(a.outputs);
      var q := p.(log := p.log + Oks(events));
      ChargeAppends(g, q, CLOSED_EARLY);
      if |events| < |a.outputs| {
        ChargeAppends(g, q, a.outputs[|events|].error);
        ChargeAppends(g, Charge(g, q, a.outputs[|events|].error).1, CLOSED_EARLY);
      }
    }
  }

  lemma ChargeAppends(g: Setting, p: Progress, error: LlmError)
    requires p.retries <= g.limit
    ensures p.log <= Charge(g, p, error).1.log && p.delays <= Charge(g, p, error).1.delays
  {
    hide ReconnectNotice, FallbackNotice, RetryDelay;
  }

  /** If the first requests are all refused with errors that are not final: one notice and one wait
      for each, numbered up to the limit; the wait is the one the server asked for, if it did. */
  lemma RefusalsAreTold(g: Setting, attempts: nat -> Attempt, free: bool, m: nat)
    requires m <= g.limit && forall j :: 0 <= j < m ==> RefusedTransiently(g.delivery, attempts(j))
    ensures var (q, made) := Run(g, attempts, free);
            && m < made && m <= |q.log| && m <= |q.delays|
            && (forall j :: 0 <= j < m ==> q.log[j] == Reconnecting(j + 1, g.limit))
            && (forall j :: 0 <= j < m ==> WaitsFor(q.delays[j], RefusalOf(attempts(j)), j + 1))
  {
    hide AfterAttempt, RunFrom, WaitsFor, Reconnecting, Before;
    RetriesTell(g, attempts, free, m);
    LogStays(g, attempts, Start(free), 0, m);
    assert forall j :: 0 <= j < m ==> RefusedTransiently(g.delivery, attempts(j));
  }

  /** The words for an error. */
  function Words(error: LlmError): string {
    if error.RequestTimeout? then "request timed out while waiting for the server response"
    else if error.OtherError? then error.message
    else "stream disconnected before completion: " + error.message
  }

  /** One more refusal behind the limit: a streaming turn that may still fall back says so and goes
      on; any other ends with that error. */
  lemma BehindTheLimit(g: Setting, attempts: nat -> Attempt, free: bool)
    requires forall j :: 0 <= j <= g.limit ==> RefusedTransiently(g.delivery, attempts(j))
    ensures var (q, made) := Run(g, attempts, free);
            var error := RefusalOf(attempts(g.limit));
            if g.delivery.Streaming? && free && !g.others(0) then
              && g.limit + 1 < made && g.limit < |q.log|
              && q.log[g.limit] == Ok(RuntimeNotice(
                   "Falling back from WebSockets to HTTPS transport. " + Words(error)))
            else made == g.limit + 1 && q.log != [] && q.log[|q.log| - 1] == Err(error)
  {
    hide RunFrom, TellsRetries, Before, Words;
    var m := g.limit;
    assert RefusedTransiently(g.delivery, attempts(m));
    RetriesTell(g, attempts, free, m);
    var p := Before(g, attempts, Start(free), 0, m);
    TellsWhere(g, attempts, p, m);
    if g.delivery.Streaming? && free && !g.others(0) {
      SwitchSays(g, p, attempts(m));
      hide AfterAttempt;
      GoesOnFrom(g, attempts, Start(free), 0, m);
      BeforeNext(g, attempts, Start(free), 0, m);
      LogStays(g, attempts, Start(free), 0, m + 1);
    } else {
      StopsAt(g, attempts, Start(free), 0, m);
    }
  }

  lemma TellsWhere(g: Setting, attempts: nat -> Attempt, p: Progress, m: nat)
    requires TellsRetries(g, attempts, p, m)
    ensures |p.log| == m == p.retries && p.asks == 0
  {
  }

  lemma SwitchSays(g: Setting, p: Progress, a: Attempt)
    requires g.delivery.Streaming? && p.free && p.retries == g.limit && !g.others(p.asks)
    requires RefusedTransiently(g.delivery, a)
    ensures var (again, q) := AfterAttempt(g, p, a);
            again && q.log == p.log + [Ok(RuntimeNotice("Falling back from WebSockets to HTTPS transport. "
                                                        + Words(a.error)))]
  {
  }

  lemma {:induction false} StopsAt(g: Setting, attempts: nat -> Attempt, p: Progress, n: nat, k: nat)
    requires p.retries <= g.limit && n <= k < RunFrom(g, attempts, p, n).1
    requires !AfterAttempt(g, Before(g, attempts, p, n, k), attempts(k)).0
    ensures RunFrom(g, attempts, p, n) == (AfterAttempt(g, Before(g, attempts, p, n, k), attempts(k)).1, k + 1)
    decreases k - n
  {
    hide AfterAttempt, Budget;
    if n < k {
      StopsAt(g, attempts, AfterAttempt(g, p, attempts(n)).1, n + 1, k);
    }
  }
}
