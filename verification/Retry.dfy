/** One turn's stream with retries and a one-shot transport fallback
    (src/llm/src/runtime.rs:440-605, src/llm/src/transport.rs, src/llm/src/runtime_client.rs:294-311).

    Every attempt is an input: the request is refused, or it gives a finite stream of adapted
    events and errors.  The receiver of the turn's events is live. */
module Retry {
  import opened Basics
  import opened Transcript
  import opened SemanticEvents

  datatype LlmError =
    | Retryable(message: string, delay: Option<nat>)
    | Disconnected(message: string)
    | RequestTimeout
    | OtherError(message: string)

  datatype Delivery = Streaming | NonStreaming

  type Sent = Result<TurnEvent, LlmError>

  datatype Attempt = Refused(error: LlmError) | Streamed(outputs: seq<Sent>)

  /** A sleep before an attempt, in milliseconds: the server's delay or the default one. */
  datatype Delay = Given(ms: nat) | Backoff(ms: nat)

  const CLOSED_EARLY: LlmError := Disconnected("stream closed before response.completed")

  predicate IsRetryable(delivery: Delivery, error: LlmError) {
    error.Retryable? || (delivery.Streaming? && (error.Disconnected? || error.RequestTimeout?))
  }

  function Power2(n: nat): nat {
    if n == 0 then 1 else 2 * Power2(n - 1)
  }

  function BackoffMillis(retries: nat): nat {
    var exponent := if retries == 0 then 0 else if retries - 1 < 6 then retries - 1 else 6;
    200 * Power2(exponent)
  }

  function RetryDelay(error: LlmError, retries: nat): Delay {
    if error.Retryable? && error.delay.Some? then Given(error.delay.value) else Backoff(BackoffMillis(retries))
  }

  function Describe(error: LlmError): string {
    match error
    case Retryable(message, _) => "stream disconnected before completion: " + message
    case Disconnected(message) => "stream disconnected before completion: " + message
    case RequestTimeout => "request timed out while waiting for the server response"
    case OtherError(message) => message
  }

  function ReconnectNotice(retries: nat, limit: nat): TurnEvent {
    RuntimeNotice("Reconnecting... " + Numeral(retries) + "/" + Numeral(limit))
  }

  function FallbackNotice(error: LlmError): TurnEvent {
    RuntimeNotice("Falling back from WebSockets to HTTPS transport. " + Describe(error))
  }

  // ---------------------------------------------------------------------------
  // The meaning of a run

  /** `others(k)`: another session takes the fallback just before this task asks for it the k-th time. */
  datatype Setting = Setting(delivery: Delivery, limit: nat, others: nat -> bool)

  /** `free`: realtime streaming is on and nobody sharing the preference has fallen back yet. */
  datatype Progress = Progress(retries: nat, free: bool, asks: nat, switches: nat, log: seq<Sent>, delays: seq<Delay>)

  /** How many more failures can be survived. */
  function Budget(g: Setting, p: Progress): int {
    (if p.free && g.delivery.Streaming? then g.limit + 1 else 0) + (g.limit - p.retries)
  }

  /** One failure: whether to go on, and what it costs. */
  function Charge(g: Setting, p: Progress, error: LlmError): (r: (bool, Progress))
    requires p.retries <= g.limit
    ensures r.1.retries <= g.limit && Budget(g, r.1) <= Budget(g, p)
    ensures r.0 ==> Budget(g, r.1) < Budget(g, p)
  {
    if !IsRetryable(g.delivery, error) then (false, p)
    else if p.retries < g.limit then
      (true, p.(retries := p.retries + 1,
                log := p.log + [Ok(ReconnectNotice(p.retries + 1, g.limit))],
                delays := p.delays + [RetryDelay(error, p.retries + 1)]))
    else if g.delivery.NonStreaming? then (false, p)
    else if p.free && !g.others(p.asks) then
      (true, p.(retries := 0, free := false, asks := p.asks + 1, switches := p.switches + 1,
                log := p.log + [Ok(FallbackNotice(error))]))
    else (false, p.(free := false, asks := p.asks + 1))
  }

  /** The events a stream gives before its first error. */
  function Events(outputs: seq<Sent>): (r: seq<TurnEvent>)
    ensures |r| <= |outputs|
    ensures |r| < |outputs| ==> outputs[|r|].Err?
  {
    if outputs == [] || outputs[0].Err? then [] else [outputs[0].value] + Events(outputs[1..])
  }

  function AttemptEvents(a: Attempt): seq<TurnEvent> {
    if a.Refused? then [] else Events(a.outputs)
  }

  function Oks(events: seq<TurnEvent>): seq<Sent> {
    seq(|events|, i requires 0 <= i < |events| => Ok(events[i]))
  }

  predicate HasCompleted(events: seq<TurnEvent>) {
    exists i :: 0 <= i < |events| && events[i].TurnCompleted?
  }

  /** A failure that is charged if `charged`, and otherwise reported as the last thing sent. */
  function ChargeOrFail(g: Setting, p: Progress, error: LlmError, charged: bool): (r: (bool, Progress))
    requires p.retries <= g.limit
    ensures r.1.retries <= g.limit && Budget(g, r.1) <= Budget(g, p)
    ensures r.0 ==> Budget(g, r.1) < Budget(g, p)
  {
    var (again, q) := if charged then Charge(g, p, error) else (false, p);
    (again, if again then q else q.(log := q.log + [Err(error)]))
  }

  /** The end of a stream: quiet if it completed, a failure if it did not. */
  function AfterEnd(g: Setting, p: Progress, completed: bool): (r: (bool, Progress))
    requires p.retries <= g.limit
    ensures r.1.retries <= g.limit && Budget(g, r.1) <= Budget(g, p)
    ensures r.0 ==> Budget(g, r.1) < Budget(g, p)
  {
    if completed then (false, p) else ChargeOrFail(g, p, CLOSED_EARLY, g.delivery.Streaming?)
  }

  /** One attempt: a retryable error in the middle of a stream is charged, and then the end of
      that stream is charged too. */
  function AfterAttempt(g: Setting, p: Progress, a: Attempt): (r: (bool, Progress))
    requires p.retries <= g.limit
    ensures r.1.retries <= g.limit && Budget(g, r.1) <= Budget(g, p)
    ensures r.0 ==> Budget(g, r.1) < Budget(g, p)
  {
    match a
    case Refused(error) => ChargeOrFail(g, p, error, true)
    case Streamed(outputs) =>
      var events := Events(outputs);
      var q := p.(log := p.log + Oks(events));
      if |events| == |outputs| then AfterEnd(g, q, HasCompleted(events))
      else
        var (again, d) := ChargeOrFail(g, q, outputs[|events|].error, g.delivery.Streaming?);
        if again then AfterEnd(g, d, HasCompleted(events)) else (false, d)
  }

  /** The whole run after `n` attempts: what it leaves, and how many attempts it took in all. */
  function RunFrom(g: Setting, attempts: nat -> Attempt, p: Progress, n: nat): (r: (Progress, nat))
    requires p.retries <= g.limit
    ensures n < r.1 <= n + 1 + Budget(g, p)
    decreases Budget(g, p)
  {
    var (again, q) := AfterAttempt(g, p, attempts(n));
    if again then RunFrom(g, attempts, q, n + 1) else (q, n + 1)
  }

  function Start(free: bool): Progress {
    Progress(0, free, 0, 0, [], [])
  }

  function Run(g: Setting, attempts: nat -> Attempt, free: bool): (Progress, nat) {
    RunFrom(g, attempts, Start(free), 0)
  }

  // ---------------------------------------------------------------------------
  // The task

  /** The flag shared by all sessions of a client. */
  class StreamingPreference {
    var preferHttp: bool

    constructor ()
      ensures !preferHttp
    {
      preferHttp := false;
    }

    method PreferHttpFallback(realtime: bool) returns (activated: bool)
      modifies this
      ensures activated <==> realtime && !old(preferHttp)
      ensures preferHttp <==> old(preferHttp) || realtime
    {
      activated := false;
      if realtime {
        var before := preferHttp;
        preferHttp := true;
        activated := !before;
      }
    }
  }

  class TurnTask {
    var retries: nat
    var log: seq<Sent>
    var delays: seq<Delay>
    var asks: nat  // how often the other sessions had a chance to fall back first
    ghost var switches: nat
    const limit: nat
    const delivery: Delivery
    const realtime: bool
    const preference: StreamingPreference
    const others: nat -> bool

    ghost function Rules(): Setting {
      Setting(delivery, limit, others)
    }

    ghost function Now(): Progress
      reads this, preference
    {
      Progress(retries, realtime && !preference.preferHttp, asks, switches, log, delays)
    }

    constructor (delivery: Delivery, limit: nat, realtime: bool, preference: StreamingPreference, others: nat -> bool)
      ensures Rules() == Setting(delivery, limit, others)
      ensures this.preference == preference && this.realtime == realtime
      ensures Now() == Start(realtime && !preference.preferHttp)
    {
      this.delivery, this.limit, this.realtime := delivery, limit, realtime;
      this.preference, this.others := preference, others;
      retries, log, delays, asks, switches := 0, [], [], 0, 0;
    }

    method HandleTurnFailure(error: LlmError) returns (again: bool)
      requires retries <= limit
      modifies this, preference
      ensures (again, Now()) == Charge(Rules(), old(Now()), error)
    {
      hide Describe, RetryDelay, ReconnectNotice, FallbackNotice;
      if !IsRetryable(delivery, error) {
        return false;
      }
      if retries >= limit {
        if delivery.Streaming? {
          if others(asks) {
            var taken := preference.PreferHttpFallback(realtime);
          }
          var switched := preference.PreferHttpFallback(realtime);
          asks := asks + 1;
          if switched {
            retries := 0;
            switches := switches + 1;
            log := log + [Ok(FallbackNotice(error))];
            return true;
          }
        }
        return false;
      }
      retries := retries + 1;
      log := log + [Ok(ReconnectNotice(retries, limit))];
      delays := delays + [RetryDelay(error, retries)];
      again := true;
    }

    /** The retry loop: forwards the events of every attempt and stops at the first success or
        at the first failure that cannot be charged. */
    method RunTurn(attempts: nat -> Attempt) returns (made: nat)
      requires retries <= limit
      modifies this, preference
      ensures (Now(), made) == RunFrom(Rules(), attempts, old(Now()), 0)
    {
      hide Charge, AfterAttempt;
      made := 0;
      while true
        invariant retries <= limit
        invariant RunFrom(Rules(), attempts, Now(), made) == RunFrom(Rules(), attempts, old(Now()), 0)
        decreases Budget(Rules(), Now())
      {
        var again := MakeAttempt(attempts(made));
        made := made + 1;
        if !again {
          return;
        }
      }
    }

    method MakeAttempt(attempt: Attempt) returns (again: bool)
      requires retries <= limit
      modifies this, preference
      ensures (again, Now()) == AfterAttempt(Rules(), old(Now()), attempt)
    {
      hide Charge, Events, HasCompleted;
      if attempt.Refused? {
        again := HandleTurnFailure(attempt.error);
        if !again {
          log := log + [Err(attempt.error)];
        }
        return;
      }
      var completed, failed := ForwardEvents(attempt.outputs);
      if failed.Some? {
        if delivery.Streaming? {
          again := HandleTurnFailure(failed.value);
        } else {
          again := false;
        }
        if !again {
          log := log + [Err(failed.value)];
          return;
        }
      }
      again := EndStream(completed);
    }

    method EndStream(completed: bool) returns (again: bool)
      requires retries <= limit
      modifies this, preference
      ensures (again, Now()) == AfterEnd(Rules(), old(Now()), completed)
    {
      hide Charge;
      if completed {
        return false;
      }
      again := false;
      if delivery.Streaming? {
        again := HandleTurnFailure(CLOSED_EARLY);
      }
      if !again {
        log := log + [Err(CLOSED_EARLY)];
      }
    }

    /** Forwards events up to the first error. */
    method ForwardEvents(outputs: seq<Sent>) returns (completed: bool, failed: Option<LlmError>)
      modifies this`log
      ensures var events := Events(outputs);
              && log == old(log) + Oks(events)
              && completed == HasCompleted(events)
              && failed == if |events| == |outputs| then None else Some(outputs[|events|].error)
    {
      hide Events;
      completed, failed := false, None;
      ghost var events: seq<TurnEvent> := [];
      assert Oks(events) == [];
      for i := 0 to |outputs|
        invariant forall k :: 0 <= k < i ==> outputs[k].Ok?
        invariant Oks(events) == outputs[..i]
        invariant log == old(log) + Oks(events)
        invariant completed == HasCompleted(events)
        invariant failed.None?
      {
        if outputs[i].Err? {
          EventsAre(outputs, events);
          failed := Some(outputs[i].error);
          return;
        }
        completed := completed || outputs[i].value.TurnCompleted?;
        log := log + [outputs[i]];
        CompletedOneMore(events, outputs[i].value);
        events := events + [outputs[i].value];
      }
      EventsAre(outputs, events);
    }
  }

  lemma CompletedOneMore(events: seq<TurnEvent>, e: TurnEvent)
    ensures HasCompleted(events + [e]) <==> HasCompleted(events) || e.TurnCompleted?
    ensures Oks(events + [e]) == Oks(events) + [Ok(e)]
  {
    var more := events + [e];
    if i :| 0 <= i < |events| && events[i].TurnCompleted? {
      assert more[i].TurnCompleted?;
    }
    assert more[|events|] == e;
  }

  /** The leading events, recognised by where they stop. */
  lemma {:induction false} EventsAre(outputs: seq<Sent>, events: seq<TurnEvent>)
    requires |events| <= |outputs| && Oks(events) == outputs[..|events|]
    requires |events| < |outputs| ==> outputs[|events|].Err?
    ensures Events(outputs) == events
  {
    if events != [] {
      assert outputs[0] == outputs[..|events|][0] == Oks(events)[0];
      assert Oks(events[1..]) == Oks(events)[1..] == outputs[1..][..|events| - 1];
      EventsAre(outputs[1..], events[1..]);
    }
  }

  // ---------------------------------------------------------------------------
  // How long a run takes

  /** The cost of a failure: one unit of the budget, until it is used up. */
  lemma ChargeCostsOne(g: Setting, p: Progress, error: LlmError)
    requires p.retries <= g.limit && IsRetryable(g.delivery, error) && forall k :: !g.others(k)
    ensures var (again, q) := Charge(g, p, error);
            (again <==> 0 < Budget(g, p)) && (again ==> Budget(g, q) == Budget(g, p) - 1)
  {
  }

  /** If every request is refused, the whole budget is used, one unit per attempt. */
  lemma {:induction false} RefusedEveryTime(g: Setting, attempts: nat -> Attempt, p: Progress, n: nat)
    requires p.retries <= g.limit && forall k :: !g.others(k)
    requires forall k :: IsRefusal(g.delivery, attempts(k))
    ensures RunFrom(g, attempts, p, n).1 == n + 1 + Budget(g, p)
    decreases Budget(g, p)
  {
    hide Charge, Budget;
    assert IsRefusal(g.delivery, attempts(n));
    ChargeCostsOne(g, p, attempts(n).error);
    var (again, q) := AfterAttempt(g, p, attempts(n));
    BudgetIsLeft(g, p);
    if again {
      RefusedEveryTime(g, attempts, q, n + 1);
    }
  }

  predicate IsRefusal(delivery: Delivery, a: Attempt) {
    a.Refused? && IsRetryable(delivery, a.error)
  }

  lemma BudgetIsLeft(g: Setting, p: Progress)
    requires p.retries <= g.limit
    ensures 0 <= Budget(g, p)
  {
  }

  /** If every stream breaks in the middle, an attempt costs two units: the error is charged, and
      so is the missing completion.  Half as many attempts are made. */
  lemma {:induction false} BrokenEveryTime(g: Setting, attempts: nat -> Attempt, p: Progress, n: nat)
    requires p.retries <= g.limit && g.delivery.Streaming? && forall k :: !g.others(k)
    requires forall k :: BreaksOff(attempts(k))
    ensures RunFrom(g, attempts, p, n).1 == n + 1 + Budget(g, p) / 2
    decreases Budget(g, p)
  {
    hide Charge, Budget, Events, HasCompleted;
    var a := attempts(n);
    assert BreaksOff(a);
    var events := Events(a.outputs);
    var error := a.outputs[|events|].error;
    var forwarded := p.(log := p.log + Oks(events));
    SameBudget(g, p, forwarded);
    BudgetIsLeft(g, p);
    ChargeCostsOne(g, forwarded, error);
    var (once, d) := Charge(g, forwarded, error);
    if once {
      BudgetIsLeft(g, d);
      ChargeCostsOne(g, d, CLOSED_EARLY);
    }
    var (again, q) := AfterAttempt(g, p, a);
    if again {
      BrokenEveryTime(g, attempts, q, n + 1);
    }
  }

  lemma SameBudget(g: Setting, p: Progress, q: Progress)
    requires p.retries == q.retries && p.free == q.free
    ensures Budget(g, p) == Budget(g, q)
  {
  }

  predicate BreaksOff(a: Attempt) {
    && a.Streamed?
    && var n := |Events(a.outputs)|;
    && n < |a.outputs| && IsRetryable(Streaming, a.outputs[n].error) && !HasCompleted(Events(a.outputs))
  }

  /** A run of L + 1 attempts, and once more as many if it is the one that falls back. */
  lemma {:induction false} AttemptsPaidFor(g: Setting, attempts: nat -> Attempt, p: Progress, n: nat)
    requires p.retries <= g.limit
    ensures var (q, made) := RunFrom(g, attempts, p, n);
            && made <= n + 1 + (g.limit - p.retries) + (if p.switches < q.switches then g.limit + 1 else 0)
            && p.switches <= q.switches <= p.switches + (if p.free && g.delivery.Streaming? then 1 else 0)
            && (q.free ==> p.free && q.switches == p.switches)
    decreases Budget(g, p)
  {
    hide AfterAttempt, Budget;
    var (again, q) := AfterAttempt(g, p, attempts(n));
    BudgetIsLeft(g, p);
    AttemptPaidFor(g, p, attempts(n));
    if again {
      AttemptsPaidFor(g, attempts, q, n + 1);
    }
  }

  lemma ChargePaidFor(g: Setting, p: Progress, error: LlmError)
    requires p.retries <= g.limit
    ensures var (again, q) := Charge(g, p, error);
            PaidFor(g, p, again, q)
  {
  }

  /** What a failure takes from the retries, or the one switch that gives them all back. */
  predicate PaidFor(g: Setting, p: Progress, again: bool, q: Progress) {
    && (q.free ==> p.free && q.switches == p.switches)
    && (q.switches == p.switches || (q.switches == p.switches + 1 && p.free && !q.free && g.delivery.Streaming?))
    && (q.switches == p.switches ==> q.retries >= p.retries + if again then 1 else 0)
    && q.retries <= g.limit
  }

  lemma AttemptPaidFor(g: Setting, p: Progress, a: Attempt)
    requires p.retries <= g.limit
    ensures var (again, q) := AfterAttempt(g, p, a);
            PaidFor(g, p, again, q)
  {
    hide Charge, Budget, Events, HasCompleted;
    if a.Refused? {
      ChargePaidFor(g, p, a.error);
    } else {
      var events := Events(a.outputs);
      var q := p.(log := p.log + Oks(events));
      ChargePaidFor(g, q, CLOSED_EARLY);
      if |events| < |a.outputs| {
        var error := a.outputs[|events|].error;
        ChargePaidFor(g, q, error);
        ChargePaidFor(g, Charge(g, q, error).1, CLOSED_EARLY);
      }
    }
  }

  /** At most 2L + 2 attempts when the fallback can be taken, at most L + 1 when it cannot. */
  lemma AttemptsAreBounded(g: Setting, attempts: nat -> Attempt, free: bool)
    ensures var (q, made) := Run(g, attempts, free);
            && made <= (if free && g.delivery.Streaming? then 2 * g.limit + 2 else g.limit + 1)
            && (q.switches == 0 ==> made <= g.limit + 1)
  {
    hide RunFrom;
    AttemptsPaidFor(g, attempts, Start(free), 0);
  }

  // ---------------------------------------------------------------------------
  // Sessions that share the preference

  /** The answers to all requests to fall back, in the order of the swaps. */
  function Answers(preferHttp: bool, asks: seq<bool>): (answers: seq<bool>)
    ensures |answers| == |asks|
    decreases asks
  {
    if asks == [] then []
    else [asks[0] && !preferHttp] + Answers(preferHttp || asks[0], asks[1..])
  }

  /** Exactly the first session with realtime streaming that asks gets the switch. */
  lemma {:induction false} FirstAskSwitches(preferHttp: bool, asks: seq<bool>, i: nat)
    requires i < |asks|
    ensures Answers(preferHttp, asks)[i] <==> !preferHttp && asks[i] && true !in asks[..i]
    decreases asks
  {
    if i > 0 {
      FirstAskSwitches(preferHttp || asks[0], asks[1..], i - 1);
      assert asks[..i] == [asks[0]] + asks[1..][..i - 1];
    } else if |asks| > 1 {
      FirstAskSwitches(preferHttp || asks[0], asks[1..], 0);
    }
  }

  /** A turn of a session: what its task was given, whether its endpoint has realtime streaming,
      when it began, and where its requests to fall back stand in the order of all requests. */
  datatype TurnRun = TurnRun(rules: Setting, attempts: nat -> Attempt, realtime: bool, start: nat, places: seq<nat>)

  /** The run with the shared flag as the turn finds it when it begins. */
  function RunOf(r: TurnRun, preferHttp: bool, asks: seq<bool>): (Progress, nat) {
    Run(r.rules, r.attempts, r.realtime && !FlagAt(preferHttp, asks, r.start))
  }

  /** The shared flag behind the first `n` requests. */
  predicate FlagAt(preferHttp: bool, asks: seq<bool>, n: nat) {
    preferHttp || exists i :: 0 <= i < n && i < |asks| && asks[i]
  }

  predicate IsOrder(runs: seq<TurnRun>, order: seq<nat>) {
    forall p :: 0 <= p < |order| ==> order[p] < |runs|
  }

  /** What the requests in this order ask for. */
  function AsksOf(runs: seq<TurnRun>, order: seq<nat>): (asks: seq<bool>)
    requires IsOrder(runs, order)
    ensures |asks| == |order|
  {
    seq(|order|, p requires 0 <= p < |order| => runs[order[p]].realtime)
  }

  /** All turns share one preference: the requests of all of them stand in one order, every turn
      makes exactly the requests at its places, behind its start, and sees at each of them the
      flag that the requests before it have left. */
  ghost predicate SharePreference(runs: seq<TurnRun>, order: seq<nat>, preferHttp: bool, asks: seq<bool>) {
    && IsOrder(runs, order) && asks == AsksOf(runs, order)
    && EveryPlaceIsTaken(runs, order)
    && forall i :: 0 <= i < |runs| ==> SeesFlag(runs[i], i, order, preferHttp, asks)
  }

  predicate EveryPlaceIsTaken(runs: seq<TurnRun>, order: seq<nat>)
    requires IsOrder(runs, order)
  {
    forall p :: 0 <= p < |order| ==> p in runs[order[p]].places
  }

  ghost predicate SeesFlag(r: TurnRun, i: nat, order: seq<nat>, preferHttp: bool, asks: seq<bool>) {
    && |r.places| == RunOf(r, preferHttp, asks).0.asks
    && (forall k :: 0 <= k < |r.places| ==> r.start <= r.places[k] < |order| && order[r.places[k]] == i)
    && (forall k, l :: 0 <= k < l < |r.places| ==> r.places[k] < r.places[l])
    && (forall k :: 0 <= k < |r.places| ==> (r.rules.others(k) <==> FlagAt(preferHttp, asks, r.places[k])))
  }

  /** All attempts of the first `n` turns. */
  function Made(runs: seq<TurnRun>, n: nat, preferHttp: bool, asks: seq<bool>): nat
    requires n <= |runs|
    decreases n
  {
    if n == 0 then 0 else Made(runs, n - 1, preferHttp, asks) + RunOf(runs[n - 1], preferHttp, asks).1
  }

  /** All switches of the first `n` turns. */
  function Switched(runs: seq<TurnRun>, n: nat, preferHttp: bool, asks: seq<bool>): nat
    requires n <= |runs|
    decreases n
  {
    if n == 0 then 0 else Switched(runs, n - 1, preferHttp, asks) + RunOf(runs[n - 1], preferHttp, asks).0.switches
  }

  /** A run that switches does so at one of its requests, and nobody else was there before. */
  lemma {:induction false} SwitchHasPlace(g: Setting, attempts: nat -> Attempt, p: Progress, n: nat) returns (k: nat)
    requires p.retries <= g.limit
    ensures var q := RunFrom(g, attempts, p, n).0;
            && p.asks <= q.asks
            && (p.switches < q.switches ==> p.free && p.asks <= k < q.asks && !g.others(k))
    decreases Budget(g, p)
  {
    hide AfterAttempt, Budget;
    var (again, q) := AfterAttempt(g, p, attempts(n));
    BudgetIsLeft(g, p);
    AttemptPaidFor(g, p, attempts(n));
    k := AttemptAsks(g, p, attempts(n));
    if again {
      var l := SwitchHasPlace(g, attempts, q, n + 1);
      if q.switches == p.switches {
        k := l;
      }
    }
  }

  predicate Asked(g: Setting, p: Progress, q: Progress, k: nat) {
    p.asks <= q.asks && (p.switches < q.switches ==> p.free && p.asks <= k < q.asks && !g.others(k))
  }

  lemma ChargeAsks(g: Setting, p: Progress, error: LlmError)
    requires p.retries <= g.limit
    ensures Asked(g, p, Charge(g, p, error).1, p.asks)
  {
  }

  lemma AttemptAsks(g: Setting, p: Progress, a: Attempt) returns (k: nat)
    requires p.retries <= g.limit
    ensures Asked(g, p, AfterAttempt(g, p, a).1, k)
  {
    hide Charge, Budget, Events, HasCompleted;
    k := p.asks;
    if a.Refused? {
      ChargeAsks(g, p, a.error);
    } else {
      var events := Events(a.outputs);
      var q := p.(log := p.log + Oks(events));
      ChargeAsks(g, q, CLOSED_EARLY);
      if |events| < |a.outputs| {
        var error := a.outputs[|events|].error;
        var d := Charge(g, q, error).1;
        ChargeAsks(g, q, error);
        ChargePaidFor(g, q, error);
        ChargeAsks(g, d, CLOSED_EARLY);
        if d.switches == p.switches {
          k := d.asks;
        }
      }
    }
  }

  /** Only the first eligible request of all can have switched. */
  lemma SwitchedFirst(runs: seq<TurnRun>, order: seq<nat>, preferHttp: bool, asks: seq<bool>, i: nat)
    returns (place: nat)
    requires SharePreference(runs, order, preferHttp, asks) && i < |runs|
    requires SwitchesOf(runs[i], preferHttp, asks) > 0
    ensures place < |order| && order[place] == i
    ensures asks[place] && !FlagAt(preferHttp, asks, place)
    ensures Answers(preferHttp, asks)[place]
  {
    hide Run, Answers, FlagAt, IsOrder;
    var r := runs[i];
    assert SeesFlag(r, i, order, preferHttp, asks);
    var k := SwitchHasPlace(r.rules, r.attempts, Start(r.realtime && !FlagAt(preferHttp, asks, r.start)), 0);
    SwitchesOfRun(r, preferHttp, asks);
    place := r.places[k];
    FirstAskSwitches(preferHttp, asks, place);
    NoFlagNoAsk(preferHttp, asks, place);
  }

  lemma SwitchesOfRun(r: TurnRun, preferHttp: bool, asks: seq<bool>)
    ensures var free := r.realtime && !FlagAt(preferHttp, asks, r.start);
            && RunOf(r, preferHttp, asks) == RunFrom(r.rules, r.attempts, Start(free), 0)
            && RunOf(r, preferHttp, asks).0.switches <= (if free then 1 else 0)
            && RunOf(r, preferHttp, asks).1 <= (1 + RunOf(r, preferHttp, asks).0.switches) * (r.rules.limit + 1)
  {
    hide RunFrom, FlagAt;
    var free := r.realtime && !FlagAt(preferHttp, asks, r.start);
    AttemptsPaidFor(r.rules, r.attempts, Start(free), 0);
    RunPaidFor(r.rules, r.attempts, free);
  }

  lemma NoFlagNoAsk(preferHttp: bool, asks: seq<bool>, n: nat)
    requires n < |asks| && !FlagAt(preferHttp, asks, n)
    ensures !preferHttp && true !in asks[..n]
  {
  }

  lemma FlagIsUp(preferHttp: bool, asks: seq<bool>, a: nat, b: nat)
    requires a < b && a < |asks| && asks[a]
    ensures FlagAt(preferHttp, asks, b)
  {
  }

  /** Two turns that share a preference do not both switch. */
  lemma OneOfTwo(runs: seq<TurnRun>, order: seq<nat>, preferHttp: bool, asks: seq<bool>, i: nat, j: nat)
    requires SharePreference(runs, order, preferHttp, asks) && i < j < |runs|
    ensures SwitchesOf(runs[i], preferHttp, asks) == 0 || SwitchesOf(runs[j], preferHttp, asks) == 0
  {
    hide RunOf, Answers, SeesFlag, FlagAt, IsOrder;
    if SwitchesOf(runs[i], preferHttp, asks) > 0 && SwitchesOf(runs[j], preferHttp, asks) > 0 {
      var a := SwitchedFirst(runs, order, preferHttp, asks, i);
      var b := SwitchedFirst(runs, order, preferHttp, asks, j);
      FlagIsUp(preferHttp, asks, if a < b then a else b, if a < b then b else a);
    }
  }

  /** Whether a turn has switched. */
  function SwitchesOf(r: TurnRun, preferHttp: bool, asks: seq<bool>): nat {
    RunOf(r, preferHttp, asks).0.switches
  }

  lemma {:induction false} OneSwitch(runs: seq<TurnRun>, n: nat, order: seq<nat>, preferHttp: bool, asks: seq<bool>)
    returns (i: nat)
    requires SharePreference(runs, order, preferHttp, asks) && n <= |runs|
    ensures && Switched(runs, n, preferHttp, asks) <= 1
            && (Switched(runs, n, preferHttp, asks) == 1 ==> i < n && SwitchesOf(runs[i], preferHttp, asks) > 0)
    decreases n
  {
    hide SharePreference, SwitchesOf, Switched;
    i := 0;
    if n == 0 {
      NothingSwitched(runs, preferHttp, asks);
    } else {
      i := OneSwitch(runs, n - 1, order, preferHttp, asks);
      SwitchedOneMore(runs, n, preferHttp, asks);
      if SwitchesOf(runs[n - 1], preferHttp, asks) > 0 {
        if Switched(runs, n - 1, preferHttp, asks) == 1 {
          OneOfTwo(runs, order, preferHttp, asks, i, n - 1);
        }
        i := n - 1;
      }
    }
  }

  lemma NothingSwitched(runs: seq<TurnRun>, preferHttp: bool, asks: seq<bool>)
    ensures Switched(runs, 0, preferHttp, asks) == 0
  {
  }

  lemma SwitchedOneMore(runs: seq<TurnRun>, n: nat, preferHttp: bool, asks: seq<bool>)
    requires 0 < n <= |runs|
    ensures Switched(runs, n, preferHttp, asks)
         == Switched(runs, n - 1, preferHttp, asks) + SwitchesOf(runs[n - 1], preferHttp, asks)
    ensures SwitchesOf(runs[n - 1], preferHttp, asks) <= 1
  {
    hide RunOf;
    SwitchesOfRun(runs[n - 1], preferHttp, asks);
  }

  lemma FlagDownAtStart(r: TurnRun, preferHttp: bool, asks: seq<bool>)
    requires SwitchesOf(r, preferHttp, asks) > 0
    ensures !preferHttp
  {
    hide RunFrom;
    SwitchesOfRun(r, preferHttp, asks);
  }

  lemma {:induction false} AttemptsOfAll(runs: seq<TurnRun>, n: nat, preferHttp: bool, asks: seq<bool>, limit: nat)
    requires n <= |runs| && forall i :: 0 <= i < |runs| ==> runs[i].rules.limit == limit
    ensures Made(runs, n, preferHttp, asks) <= (n + Switched(runs, n, preferHttp, asks)) * (limit + 1)
    decreases n
  {
    hide RunOf;
    if n > 0 {
      AttemptsOfAll(runs, n - 1, preferHttp, asks, limit);
      SwitchesOfRun(runs[n - 1], preferHttp, asks);
      Distribute(n - 1 + Switched(runs, n - 1, preferHttp, asks), 1 + RunOf(runs[n - 1], preferHttp, asks).0.switches,
                 limit + 1);
    }
  }

  /** Over all turns of all sessions that share a preference: at most one switch, none if the flag
      was up before, and one round of attempts per turn with one more for the switch. */
  lemma SharedAttempts(runs: seq<TurnRun>, order: seq<nat>, preferHttp: bool, asks: seq<bool>, limit: nat)
    requires SharePreference(runs, order, preferHttp, asks)
    requires forall i :: 0 <= i < |runs| ==> runs[i].rules.limit == limit
    ensures && Switched(runs, |runs|, preferHttp, asks) <= (if preferHttp then 0 else 1)
            && Made(runs, |runs|, preferHttp, asks) <= (|runs| + if preferHttp then 0 else 1) * (limit + 1)
  {
    hide RunOf, Made, Switched, SharePreference;
    var i := OneSwitch(runs, |runs|, order, preferHttp, asks);
    AttemptsOfAll(runs, |runs|, preferHttp, asks, limit);
    var all := Switched(runs, |runs|, preferHttp, asks);
    if all == 1 {
      FlagDownAtStart(runs[i], preferHttp, asks);
    }
    Distribute(|runs|, all, limit + 1);
    Distribute(|runs|, if preferHttp then 0 else 1, limit + 1);
  }

  lemma RunPaidFor(g: Setting, attempts: nat -> Attempt, free: bool)
    ensures var (q, made) := Run(g, attempts, free);
            made <= (1 + q.switches) * (g.limit + 1)
  {
    hide RunFrom;
    AttemptsPaidFor(g, attempts, Start(free), 0);
    var (q, made) := Run(g, attempts, free);
    if q.switches == 1 {
      assert (1 + q.switches) * (g.limit + 1) == 2 * (g.limit + 1);
    }
  }

  lemma Distribute(a: nat, b: nat, c: nat)
    ensures (a + b) * c == a * c + b * c
  {
  }

  // ---------------------------------------------------------------------------
  // The default delays

  /** Default delays double from 200 ms and stop at 12.8 s. */
  lemma BackoffDoubles(retries: nat)
    requires 1 <= retries
    ensures BackoffMillis(1) == 200 && BackoffMillis(7) == 12800
    ensures BackoffMillis(retries + 1) == if retries < 7 then 2 * BackoffMillis(retries) else 12800
    ensures 200 <= BackoffMillis(retries) <= 12800
  {
    assert Power2(3) == 8 && Power2(6) == 64;
    assert Power2(1) == 2 && Power2(2) == 4 && Power2(4) == 16 && Power2(5) == 32;
  }

  /** Every delay is the server's, or the default one of a retry within the limit. */
  ghost predicate DelaysFit(delays: seq<Delay>, limit: nat) {
    forall i :: 0 <= i < |delays| && delays[i].Backoff? ==> FitsBackoff(delays[i].ms, limit)
  }

  ghost predicate FitsBackoff(ms: nat, limit: nat) {
    ms <= 12800 && exists r: nat :: 1 <= r <= limit && ms == BackoffMillis(r)
  }

  lemma ChargeDelays(g: Setting, p: Progress, error: LlmError)
    requires p.retries <= g.limit && DelaysFit(p.delays, g.limit)
    ensures DelaysFit(Charge(g, p, error).1.delays, g.limit)
  {
    hide BackoffMillis;
    if p.retries < g.limit {
      var r := p.retries + 1;
      BackoffDoubles(r);
      assert FitsBackoff(BackoffMillis(r), g.limit);
    }
  }

  lemma {:induction false} DelaysAreBounded(g: Setting, attempts: nat -> Attempt, p: Progress, n: nat)
    requires p.retries <= g.limit && DelaysFit(p.delays, g.limit)
    ensures DelaysFit(RunFrom(g, attempts, p, n).0.delays, g.limit)
    decreases Budget(g, p)
  {
    hide Charge, Events, HasCompleted, DelaysFit;
    var a := attempts(n);
    if a.Refused? {
      ChargeDelays(g, p, a.error);
    } else {
      var q := p.(log := p.log + Oks(Events(a.outputs)));
      ChargeDelays(g, q, CLOSED_EARLY);
      if |Events(a.outputs)| < |a.outputs| {
        var error := a.outputs[|Events(a.outputs)|].error;
        ChargeDelays(g, q, error);
        ChargeDelays(g, Charge(g, q, error).1, CLOSED_EARLY);
      }
    }
    var (again, q) := AfterAttempt(g, p, a);
    if again {
      DelaysAreBounded(g, attempts, q, n + 1);
    }
  }

  // ---------------------------------------------------------------------------
  // What a run sends

  predicate AreNotices(events: seq<TurnEvent>) {
    forall i :: 0 <= i < |events| ==> events[i].RuntimeNotice?
  }

  /** How an attempt ends: quietly before the next one or after completion, or with an error. */
  predicate EndsWith(events: seq<TurnEvent>, again: bool, tail: seq<Sent>) {
    if tail == [] then again <==> !HasCompleted(events) else !again && |tail| == 1 && tail[0].Err?
  }

  lemma ChargeNotifies(g: Setting, p: Progress, error: LlmError, charged: bool)
    returns (notices: seq<TurnEvent>, tail: seq<Sent>)
    requires p.retries <= g.limit
    ensures ChargeOrFail(g, p, error, charged).1.log == p.log + Oks(notices) + tail && AreNotices(notices)
    ensures if ChargeOrFail(g, p, error, charged).0 then tail == [] else tail == [Err(error)]
  {
    hide Describe, Numeral, RetryDelay;
    notices, tail := [], [];
    assert p.log + Oks([]) == p.log && p.log + [] == p.log;
    var (again, q) := ChargeOrFail(g, p, error, charged);
    if again {
      var notice := q.log[|p.log|];
      notices := [notice.value];
      assert Oks(notices) == [notice];
      assert p.log + Oks(notices) + [] == p.log + Oks(notices);
    } else {
      tail := [Err(error)];
    }
  }

  lemma OksAppend(a: seq<TurnEvent>, b: seq<TurnEvent>)
    ensures Oks(a + b) == Oks(a) + Oks(b)
  {
  }

  lemma NothingAdded(log: seq<Sent>)
    ensures log + Oks([]) + [] == log
  {
  }

  /** Behind its events an attempt sends notices only, and an error only if it is the last. */
  lemma AttemptForwards(g: Setting, p: Progress, a: Attempt) returns (notices: seq<TurnEvent>, tail: seq<Sent>)
    requires p.retries <= g.limit
    ensures var (again, q) := AfterAttempt(g, p, a);
            q.log == p.log + Oks(AttemptEvents(a)) + Oks(notices) + tail && EndsWith(AttemptEvents(a), again, tail)
    ensures AreNotices(notices)
  {
    hide ChargeOrFail, Budget, Events, Oks;
    if a.Refused? {
      notices, tail := ChargeNotifies(g, p, a.error, true);
      NothingAdded(p.log);
      assert p.log + Oks([]) == p.log;
    } else {
      var events := Events(a.outputs);
      var q := p.(log := p.log + Oks(events));
      if |events| == |a.outputs| {
        notices, tail := EndNotifies(g, q, events);
      } else {
        var error := a.outputs[|events|].error;
        notices, tail := ChargeNotifies(g, q, error, g.delivery.Streaming?);
        var (again, d) := ChargeOrFail(g, q, error, g.delivery.Streaming?);
        if again {
          var more;
          more, tail := EndNotifies(g, d, events);
          OksAppend(notices, more);
          assert d.log == q.log + Oks(notices);
          assert q.log + Oks(notices) + Oks(more) + tail == q.log + (Oks(notices) + Oks(more)) + tail;
          notices := notices + more;
        }
      }
    }
  }

  lemma EndNotifies(g: Setting, p: Progress, events: seq<TurnEvent>) returns (notices: seq<TurnEvent>, tail: seq<Sent>)
    requires p.retries <= g.limit
    ensures var (again, q) := AfterEnd(g, p, HasCompleted(events));
            q.log == p.log + Oks(notices) + tail && EndsWith(events, again, tail)
    ensures AreNotices(notices)
  {
    hide ChargeOrFail, Budget, HasCompleted, Oks;
    notices, tail := [], [];
    NothingAdded(p.log);
    if !HasCompleted(events) {
      notices, tail := ChargeNotifies(g, p, CLOSED_EARLY, g.delivery.Streaming?);
    }
  }

  /** The events of a log that are not notices. */
  function Told(log: seq<Sent>): seq<TurnEvent> {
    if log == [] then []
    else
      var o := log[|log| - 1];
      Told(log[..|log| - 1]) + if o.Ok? && !o.value.RuntimeNotice? then [o.value] else []
  }

  /** All events of the first `n` attempts. */
  function AllEvents(attempts: nat -> Attempt, n: nat): seq<TurnEvent> {
    if n == 0 then [] else AllEvents(attempts, n - 1) + AttemptEvents(attempts(n - 1))
  }

  lemma AllEventsOneMore(attempts: nat -> Attempt, n: nat)
    requires 0 < n
    ensures AllEvents(attempts, n) == AllEvents(attempts, n - 1) + AttemptEvents(attempts(n - 1))
  {
  }

  ghost predicate NoNotices(attempts: nat -> Attempt) {
    forall k, i :: 0 <= i < |AttemptEvents(attempts(k))| ==> !AttemptEvents(attempts(k))[i].RuntimeNotice?
  }

  lemma TellsOneMore(log: seq<Sent>, events: seq<TurnEvent>)
    requires events != []
    ensures var n := |events| - 1;
            Told(log + Oks(events))
              == Told(log + Oks(events[..n])) + if events[n].RuntimeNotice? then [] else [events[n]]
  {
    var n := |events| - 1;
    var all := log + Oks(events);
    assert all[..|all| - 1] == log + Oks(events[..n]);
  }

  lemma {:induction false} TellsEvents(log: seq<Sent>, events: seq<TurnEvent>)
    requires forall i :: 0 <= i < |events| ==> !events[i].RuntimeNotice?
    ensures Told(log + Oks(events)) == Told(log) + events
  {
    hide Told;
    if events == [] {
      assert log + Oks(events) == log;
    } else {
      var n := |events| - 1;
      TellsEvents(log, events[..n]);
      TellsOneMore(log, events);
      assert events == events[..n] + [events[n]];
    }
  }

  lemma {:induction false} TellsNoNotices(log: seq<Sent>, notices: seq<TurnEvent>)
    requires AreNotices(notices)
    ensures Told(log + Oks(notices)) == Told(log)
  {
    hide Told;
    if notices == [] {
      assert log + Oks(notices) == log;
    } else {
      TellsNoNotices(log, notices[..|notices| - 1]);
      TellsOneMore(log, notices);
    }
  }

  predicate AllOk(log: seq<Sent>) {
    forall i :: 0 <= i < |log| ==> log[i].Ok?
  }

  /** Only the last thing sent may be an error; without one, the last attempt completed. */
  predicate SentWell(log: seq<Sent>, last: Attempt) {
    && (log != [] ==> AllOk(log[..|log| - 1]))
    && (AllOk(log) ==> HasCompleted(AttemptEvents(last)))
  }

  lemma AttemptTells(g: Setting, p: Progress, a: Attempt)
    requires p.retries <= g.limit && AllOk(p.log)
    requires forall i :: 0 <= i < |AttemptEvents(a)| ==> !AttemptEvents(a)[i].RuntimeNotice?
    ensures var (again, q) := AfterAttempt(g, p, a);
            && Told(q.log) == Told(p.log) + AttemptEvents(a)
            && if again then AllOk(q.log) && !HasCompleted(AttemptEvents(a)) else SentWell(q.log, a)
  {
    hide AfterAttempt, Budget, AttemptEvents, HasCompleted, Told;
    var events := AttemptEvents(a);
    var notices, tail := AttemptForwards(g, p, a);
    TellsEvents(p.log, events);
    var told := p.log + Oks(events) + Oks(notices);
    TellsNoNotices(p.log + Oks(events), notices);
    TellsNoError(told, tail, events, AfterAttempt(g, p, a).0);
  }

  lemma TellsNoError(log: seq<Sent>, tail: seq<Sent>, events: seq<TurnEvent>, again: bool)
    requires AllOk(log) && EndsWith(events, again, tail)
    ensures Told(log + tail) == Told(log)
    ensures if again then AllOk(log + tail) && !HasCompleted(events)
            else
              && (log + tail != [] ==> AllOk((log + tail)[..|log + tail| - 1]))
              && (AllOk(log + tail) ==> HasCompleted(events))
  {
    hide HasCompleted;
    if tail == [] {
      assert log + tail == log;
    } else {
      assert (log + tail)[..|log|] == log && (log + tail)[|log|] == tail[0];
      assert Told(log) + [] == Told(log);
    }
  }

  /** A whole run sends the events of its attempts in order, at most one error and that one last;
      only the last attempt may have completed, and it did unless there is an error. */
  lemma {:induction false} RunForwards(g: Setting, attempts: nat -> Attempt, p: Progress, n: nat)
    requires p.retries <= g.limit && NoNotices(attempts)
    requires AllOk(p.log) && Told(p.log) == AllEvents(attempts, n)
    ensures var (q, made) := RunFrom(g, attempts, p, n);
            && n < made && Told(q.log) == AllEvents(attempts, made) && SentWell(q.log, attempts(made - 1))
            && forall k :: n <= k < made - 1 ==> !HasCompleted(AttemptEvents(attempts(k)))
    decreases Budget(g, p)
  {
    hide AfterAttempt, Budget, AttemptEvents, HasCompleted, Told, AllOk, SentWell;
    var (again, q) := AfterAttempt(g, p, attempts(n));
    BudgetIsLeft(g, p);
    AttemptTells(g, p, attempts(n));
    if again {
      RunForwards(g, attempts, q, n + 1);
    }
  }

  lemma RunTellsAll(g: Setting, attempts: nat -> Attempt, free: bool)
    requires NoNotices(attempts)
    ensures var (q, made) := Run(g, attempts, free);
            && 0 < made && Told(q.log) == AllEvents(attempts, made) && SentWell(q.log, attempts(made - 1))
            && forall k :: 0 <= k < made - 1 ==> !HasCompleted(AttemptEvents(attempts(k)))
  {
    hide HasCompleted, AttemptEvents, NoNotices, SentWell, RunFrom;
    RunForwards(g, attempts, Start(free), 0);
  }
}
