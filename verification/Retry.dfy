/** Bounded, observable retries of one external read (core/retry.py). Delays and timeouts are exact reals. */
module Retry {
  import opened Wrappers

  datatype Category =
    | Cancelled | RateLimited | TimedOut | TemporaryService | TemporaryProvider | TemporaryNetwork
    | AuthenticationFailed | AuthorizationFailed | NotFound | InvalidRequest | PermanentHttp
    | NonRetryable | InvalidSchema | ProviderError | Declared(name: string)

  datatype ClassifiedFailure = ClassifiedFailure(category: Category, retryable: bool, retryAfter: Option<real>)

  /** The exceptions `classify` tells apart, in the order it tests them. */
  datatype Exception =
    | ExternalCallError(category: Category, retryable: bool, retryAfter: Option<real>)
    | ListedPermanent | ListedTemporary
    | HttpStatus(code: int, retryAfter: Option<real>)
    | TimeoutException | NetworkException | SchemaException | OtherException

  const RETRYABLE_STATUSES := {408, 429, 500, 502, 503, 504}

  const CANCELLED := ClassifiedFailure(Cancelled, false, None)

  function HttpFailure(code: int, retryAfter: Option<real>): ClassifiedFailure {
    if code == 429 then ClassifiedFailure(RateLimited, true, retryAfter)
    else if code in RETRYABLE_STATUSES then
      ClassifiedFailure(if code == 408 then TimedOut else TemporaryService, true, retryAfter)
    else if code == 401 then ClassifiedFailure(AuthenticationFailed, false, None)
    else if code == 403 then ClassifiedFailure(AuthorizationFailed, false, None)
    else ClassifiedFailure(if code == 404 then NotFound else if code == 400 then InvalidRequest else PermanentHttp,
                           false, None)
  }

  function Classify(e: Exception): ClassifiedFailure {
    match e
    case ExternalCallError(category, retryable, retryAfter) => ClassifiedFailure(category, retryable, retryAfter)
    case ListedPermanent => ClassifiedFailure(NonRetryable, false, None)
    case ListedTemporary => ClassifiedFailure(TemporaryProvider, true, None)
    case HttpStatus(code, retryAfter) => HttpFailure(code, retryAfter)
    case TimeoutException => ClassifiedFailure(TimedOut, true, None)
    case NetworkException => ClassifiedFailure(TemporaryNetwork, true, None)
    case SchemaException => ClassifiedFailure(InvalidSchema, false, None)
    case OtherException => ClassifiedFailure(ProviderError, false, None)
  }

  datatype Config = Config(
    enabled: bool, maxAttempts: int, initialDelay: real, multiplier: real, maxDelay: real, jitter: real, timeout: real,
    timeoutsListedPermanent: bool)

  /** The checks of `RetryConfig.__post_init__`. */
  predicate ValidConfig(c: Config) {
    c.maxAttempts >= 1 && c.initialDelay >= 0.0 && c.maxDelay >= 0.0 && c.multiplier >= 1.0 && c.jitter >= 0.0
    && c.timeout > 0.0
  }

  /** `Interrupted` is a keyboard interrupt or system exit, which is passed on. */
  datatype Outcome = Answered(elapsed: real) | Raised(exception: Exception) | Interrupted

  /** Attempt by attempt: what the operation does, whether the caller cancelled before it or after its failure, and the
      random number its delay uses. */
  datatype World = World(operation: nat -> Outcome, cancelledBefore: nat -> bool, cancelledAfter: nat -> bool,
                         random: nat -> real)

  ghost predicate ValidWorld(w: World) {
    forall k :: 0.0 <= w.random(k) <= 1.0
  }

  datatype EventKind = Started | Failed | RetryScheduled | Succeeded | Exhausted

  datatype Event = Event(kind: EventKind, attempt: nat, retryable: bool, delay: real)

  datatype End = Delivered | GaveUp(last: ClassifiedFailure) | PassedOn

  datatype Execution = Execution(events: seq<Event>, sleeps: seq<real>, calls: nat, end: End)

  function MaximumAttempts(c: Config, idempotent: bool): nat
    requires ValidConfig(c)
  {
    if c.enabled && idempotent then c.maxAttempts else 1
  }

  function Pow(base: real, exponent: nat): real {
    if exponent == 0 then 1.0 else base * Pow(base, exponent - 1)
  }

  function RetryDelay(c: Config, attempt: nat, retryAfter: Option<real>, random: real): real
    requires attempt >= 1
  {
    var base := if retryAfter.Some? then retryAfter.value else c.initialDelay * Pow(c.multiplier, attempt - 1);
    var wait := (if base < 0.0 then 0.0 else base) + c.jitter * random;
    if wait < c.maxDelay then wait else c.maxDelay
  }

  /** How an attempt fails, if it does: a late answer counts as a timeout. */
  function FailureOf(c: Config, outcome: Outcome): Option<ClassifiedFailure>
    requires !outcome.Interrupted?
  {
    match outcome
    case Raised(e) => Some(Classify(e))
    case Answered(elapsed) =>
      if elapsed > c.timeout then
        Some(Classify(if c.timeoutsListedPermanent then ListedPermanent else TimeoutException))
      else None
  }

  datatype Verdict = Stop(end: End) | Again(delay: real)

  datatype Round = Round(events: seq<Event>, calls: nat, verdict: Verdict)

  /** One pass of the attempt loop. */
  function OneAttempt(c: Config, w: World, maximum: nat, k: nat): (r: Round)
    requires 1 <= k <= maximum
    ensures r.verdict.Again? ==> k < maximum && r.calls == 1
  {
    if w.cancelledBefore(k) then Round([Event(Failed, k, false, 0.0)], 0, Stop(GaveUp(CANCELLED)))
    else
      var start := Event(Started, k, false, 0.0);
      var outcome := w.operation(k);
      if outcome.Interrupted? then Round([start], 1, Stop(PassedOn))
      else
        var failure := FailureOf(c, outcome);
        if failure.None? then Round([start, Event(Succeeded, k, false, 0.0)], 1, Stop(Delivered))
        else
          var failed := Event(Failed, k, failure.value.retryable, 0.0);
          if !failure.value.retryable || k == maximum then Round([start, failed], 1, Stop(GaveUp(failure.value)))
          else
            var delay := RetryDelay(c, k, failure.value.retryAfter, w.random(k));
            Round([start, failed, Event(RetryScheduled, k, true, delay)], 1,
                  if w.cancelledAfter(k) then Stop(GaveUp(CANCELLED)) else Again(delay))
  }

  function Attempt(c: Config, w: World, maximum: nat, k: nat): Execution
    requires 1 <= k <= maximum
    decreases maximum - k
  {
    var round := OneAttempt(c, w, maximum, k);
    match round.verdict
    case Stop(end) => Execution(round.events, [], round.calls, end)
    case Again(delay) =>
      var rest := Attempt(c, w, maximum, k + 1);
      Execution(round.events + rest.events, [delay] + rest.sleeps, round.calls + rest.calls, rest.end)
  }

  /** The whole call, with the closing event of a failed one. */
  function Executed(c: Config, w: World, idempotent: bool): Execution
    requires ValidConfig(c)
  {
    var maximum := MaximumAttempts(c, idempotent);
    var run := Attempt(c, w, maximum, 1);
    if run.end.GaveUp? then run.(events := run.events + [Event(Exhausted, run.calls, run.end.last.retryable, 0.0)])
    else run
  }

  predicate RetryExhausted(c: Config, idempotent: bool, run: Execution)
    requires ValidConfig(c)
  {
    run.end.GaveUp? && run.end.last.retryable && MaximumAttempts(c, idempotent) > 1
  }

  method RunAttempt(c: Config, w: World, maximum: nat,
                    k: nat) returns (events: seq<Event>, calls: nat, verdict: Verdict)
    requires 1 <= k <= maximum
    ensures Round(events, calls, verdict) == OneAttempt(c, w, maximum, k)
  {
    if w.cancelledBefore(k) { return [Event(Failed, k, false, 0.0)], 0, Stop(GaveUp(CANCELLED)); }
    events, calls := [Event(Started, k, false, 0.0)], 1;
    var outcome := w.operation(k);
    if outcome.Interrupted? { return events, calls, Stop(PassedOn); }
    var failure := FailureOf(c, outcome);
    if failure.None? { return events + [Event(Succeeded, k, false, 0.0)], calls, Stop(Delivered); }
    events := events + [Event(Failed, k, failure.value.retryable, 0.0)];
    if !failure.value.retryable || k == maximum { return events, calls, Stop(GaveUp(failure.value)); }
    var delay := RetryDelay(c, k, failure.value.retryAfter, w.random(k));
    events := events + [Event(RetryScheduled, k, true, delay)];
    verdict := if w.cancelledAfter(k) then Stop(GaveUp(CANCELLED)) else Again(delay);
  }

  method Execute(c: Config, w: World, idempotent: bool) returns (run: Execution, exhausted: bool)
    requires ValidConfig(c)
    ensures run == Executed(c, w, idempotent) && exhausted == RetryExhausted(c, idempotent, run)
      {
        hide OneAttempt;
    var maximum := MaximumAttempts(c, idempotent);
    var events: seq<Event>, sleeps: seq<real>, calls := [], [], 0;
    ghost var whole := Attempt(c, w, maximum, 1);
    for attempt := 1 to maximum + 1
      invariant attempt <= maximum
      invariant var rest := Attempt(c, w, maximum, attempt);
                && whole.events == events + rest.events && whole.sleeps == sleeps + rest.sleeps
                && whole.calls == calls + rest.calls && whole.end == rest.end
    {
      var more, called, verdict := RunAttempt(c, w, maximum, attempt);
      events, calls := events + more, calls + called;
      match verdict {
        case Again(delay) => sleeps := sleeps + [delay];
        case Stop(end) =>
          run := Execution(events, sleeps, calls, end);
          if end.GaveUp? { run := run.(events := events + [Event(Exhausted, calls, end.last.retryable, 0.0)]); }
          return run, end.GaveUp? && end.last.retryable && maximum > 1;
      }
    }
    assert false;
  }

  // ----- the trace grammar -----

  function Kinds(events: seq<Event>): (r: seq<EventKind>)
    ensures |r| == |events| && forall i | 0 <= i < |r| :: r[i] == events[i].kind
  {
    seq(|events|, i requires 0 <= i < |events| => events[i].kind)
  }

  const ROUND := [Started, Failed, RetryScheduled]

  /** (started failed retry_scheduled)* and then one closing tail. A cancellation closes without a started attempt,
      right after a scheduled retry or in place of an attempt. */
  predicate IsTrace(kinds: seq<EventKind>) {
    || kinds == [Started, Succeeded]
    || kinds == [Started, Failed, Exhausted]
    || kinds == [Failed, Exhausted]
    || kinds == ROUND + [Exhausted]
    || (|kinds| > 3 && kinds[..3] == ROUND && IsTrace(kinds[3..]))
  }

  /** The kinds recorded from attempt `k` on, closing event included. */
  function TraceOf(run: Execution): seq<EventKind> {
    Kinds(run.events) + if run.end.GaveUp? then [Exhausted] else []
  }

  lemma RoundThenRest(head: seq<Event>, rest: Execution, run: Execution)
    requires |head| == 3 && Kinds(head) == ROUND && run.events == head + rest.events && run.end == rest.end
    requires IsTrace(TraceOf(rest))
    ensures IsTrace(TraceOf(run))
  {
    assert TraceOf(run) == ROUND + TraceOf(rest);
    assert TraceOf(run)[..3] == ROUND && TraceOf(run)[3..] == TraceOf(rest);
    assert |TraceOf(rest)| >= 2;
  }

  lemma {:induction false} AttemptTrace(c: Config, w: World, maximum: nat, k: nat)
    requires 1 <= k <= maximum
    ensures var run := Attempt(c, w, maximum, k); !run.end.PassedOn? ==> IsTrace(TraceOf(run))
    decreases maximum - k
  {
    hide RetryDelay, FailureOf;
    var run, round := Attempt(c, w, maximum, k), OneAttempt(c, w, maximum, k);
    if round.verdict.Again? {
      AttemptTrace(c, w, maximum, k + 1);
      if !run.end.PassedOn? { RoundThenRest(round.events, Attempt(c, w, maximum, k + 1), run); }
    } else if !run.end.PassedOn? {
      ShortTrace(run, Kinds(run.events));
    }
  }

  lemma ShortTrace(run: Execution, kinds: seq<EventKind>)
    requires kinds == Kinds(run.events)
    requires (kinds == [Failed] && run.end.GaveUp?) || (kinds == [Started, Succeeded] && !run.end.GaveUp?)
          || (kinds == [Started, Failed] && run.end.GaveUp?) || (kinds == ROUND && run.end.GaveUp?)
    ensures IsTrace(TraceOf(run))
  {
  }

  /** For any outcomes and cancellations, the recorded events spell a trace of the grammar. */
  lemma EventsFormTrace(c: Config, w: World, idempotent: bool)
    requires ValidConfig(c)
    ensures var run := Executed(c, w, idempotent); !run.end.PassedOn? ==> IsTrace(Kinds(run.events))
  {
    var maximum := MaximumAttempts(c, idempotent);
    AttemptTrace(c, w, maximum, 1);
    assert Kinds(Executed(c, w, idempotent).events) == TraceOf(Attempt(c, w, maximum, 1));
  }

  // ----- bounds -----

  function Total(sleeps: seq<real>): real {
    if sleeps == [] then 0.0 else sleeps[0] + Total(sleeps[1..])
  }

  lemma ProductIsNonNegative(a: real, b: real)
    requires a >= 0.0 && b >= 0.0
    ensures a * b >= 0.0
  {
  }

  lemma DelayIsBounded(c: Config, attempt: nat, retryAfter: Option<real>, random: real)
    requires ValidConfig(c) && attempt >= 1 && 0.0 <= random <= 1.0
    ensures 0.0 <= RetryDelay(c, attempt, retryAfter, random) <= c.maxDelay
  {
    ProductIsNonNegative(c.jitter, random);
  }

  /** A server's hint is waited out, up to the configured maximum. */
  lemma HintIsHonoured(c: Config, attempt: nat, hint: real, random: real)
    requires ValidConfig(c) && attempt >= 1 && 0.0 <= random <= 1.0
    ensures var delay := RetryDelay(c, attempt, Some(hint), random); delay >= hint || delay == c.maxDelay
    ensures RetryDelay(c, attempt, Some(hint), 0.0) == if hint < 0.0 then 0.0
                                                       else if hint < c.maxDelay then hint else c.maxDelay
  {
    ProductIsNonNegative(c.jitter, random);
  }

  lemma {:induction false} PowGrows(base: real, n: nat)
    requires base >= 1.0
    ensures Pow(base, n) >= 1.0 && Pow(base, n + 1) >= Pow(base, n)
  {
    if n > 0 {
      PowGrows(base, n - 1);
    }
    var p := Pow(base, n);
    assert Pow(base, n + 1) == base * p;
    assert (base - 1.0) * p >= 0.0 by { ProductIsNonNegative(base - 1.0, p); }
  }

  /** Back-off: without a hint and with the same draw, a later attempt never waits less. */
  lemma {:induction false} DelaysGrow(c: Config, attempt: nat, random: real)
    requires ValidConfig(c) && attempt >= 1 && 0.0 <= random <= 1.0
    ensures RetryDelay(c, attempt, None, random) <= RetryDelay(c, attempt + 1, None, random)
    ensures RetryDelay(c, 1, None, 0.0) == if c.initialDelay < c.maxDelay then c.initialDelay else c.maxDelay
  {
    PowGrows(c.multiplier, attempt - 1);
    var before, after := Pow(c.multiplier, attempt - 1), Pow(c.multiplier, attempt);
    assert c.initialDelay * before >= 0.0 by { ProductIsNonNegative(c.initialDelay, before); }
    assert c.initialDelay * (after - before) >= 0.0 by { ProductIsNonNegative(c.initialDelay, after - before); }
    assert c.initialDelay * after == c.initialDelay * before + c.initialDelay * (after - before);
  }

  lemma RoundDelayIsBounded(c: Config, w: World, maximum: nat, k: nat)
    requires ValidConfig(c) && ValidWorld(w) && 1 <= k <= maximum
    ensures var r := OneAttempt(c, w, maximum, k);
            r.calls <= 1 && (r.verdict.Again? ==> 0.0 <= r.verdict.delay <= c.maxDelay)
  {
    var outcome := w.operation(k);
    if !outcome.Interrupted? && FailureOf(c, outcome).Some? {
      DelayIsBounded(c, k, FailureOf(c, outcome).value.retryAfter, w.random(k));
    }
  }

  lemma OneMoreDelay(n: nat, d: real)
    ensures (n + 1) as real * d == n as real * d + d
  {
  }

  lemma {:induction false} AttemptBounds(c: Config, w: World, maximum: nat, k: nat)
    requires ValidConfig(c) && ValidWorld(w) && 1 <= k <= maximum
    ensures var run := Attempt(c, w, maximum, k);
            && run.calls <= maximum - k + 1 && |run.sleeps| <= maximum - k
            && 0.0 <= Total(run.sleeps) <= (maximum - k) as real * c.maxDelay
    decreases maximum - k
  {
    hide OneAttempt, ValidWorld;
    RoundDelayIsBounded(c, w, maximum, k);
    var round := OneAttempt(c, w, maximum, k);
    if round.verdict.Again? {
      AttemptBounds(c, w, maximum, k + 1);
      OneMoreDelay(maximum - k - 1, c.maxDelay);
      var rest := Attempt(c, w, maximum, k + 1).sleeps;
      assert ([round.verdict.delay] + rest)[1..] == rest;
    } else {
      ProductIsNonNegative((maximum - k) as real, c.maxDelay);
    }
  }

  /** At most `max_attempts` calls, one if the operation is not idempotent, and at most one maximal delay between
      two. */
  lemma CallsAndSleepsAreBounded(c: Config, w: World, idempotent: bool)
    requires ValidConfig(c) && ValidWorld(w)
    ensures var run := Executed(c, w, idempotent);
            && run.calls <= c.maxAttempts && (!idempotent ==> run.calls <= 1 && run.sleeps == [])
            && 0.0 <= Total(run.sleeps) <= (c.maxAttempts - 1) as real * c.maxDelay
  {
    var maximum := MaximumAttempts(c, idempotent);
    AttemptBounds(c, w, maximum, 1);
    assert (maximum - 1) as real * c.maxDelay <= (c.maxAttempts - 1) as real * c.maxDelay;
  }

  // ----- how a call ends -----

  /** The exceptions that are worth another attempt. */
  predicate Temporary(e: Exception) {
    match e
    case ExternalCallError(_, retryable, _) => retryable
    case HttpStatus(code, _) => code in {408, 429, 500, 502, 503, 504}
    case _ => e.ListedTemporary? || e.TimeoutException? || e.NetworkException?
  }

  /** An answer within the timeout. */
  predicate InTime(c: Config, outcome: Outcome) {
    outcome.Answered? && outcome.elapsed <= c.timeout
  }

  /** A late answer, unless timeouts are listed as permanent, or a temporary exception. */
  predicate WorthRetrying(c: Config, outcome: Outcome) {
    || (outcome.Answered? && outcome.elapsed > c.timeout && !c.timeoutsListedPermanent)
    || (outcome.Raised? && Temporary(outcome.exception))
  }

  /** The attempt ran and failed retryably, with nobody cancelling before it or, unless it is the last, after it. */
  predicate FailsRetryably(c: Config, w: World, maximum: nat, k: nat) {
    !w.cancelledBefore(k) && WorthRetrying(c, w.operation(k)) && (k < maximum ==> !w.cancelledAfter(k))
  }

  lemma FailureIff(c: Config, outcome: Outcome)
    requires !outcome.Interrupted?
    ensures FailureOf(c, outcome).None? <==> InTime(c, outcome)
    ensures FailureOf(c, outcome).Some? ==> (FailureOf(c, outcome).value.retryable <==> WorthRetrying(c, outcome))
  {
  }

  lemma {:induction false} AttemptExhausts(c: Config, w: World, maximum: nat, k: nat)
    requires 1 <= k <= maximum
    ensures var run := Attempt(c, w, maximum, k);
            && (run.end.GaveUp? && run.end.last.retryable
                <==> forall j | k <= j <= maximum :: FailsRetryably(c, w, maximum, j))
            && (run.end.GaveUp? && run.end.last.retryable ==> run.calls == maximum - k + 1)
    decreases maximum - k
  {
    hide FailureOf, WorthRetrying, InTime, RetryDelay;
    if !w.operation(k).Interrupted? {
      FailureIff(c, w.operation(k));
      InTimeIsNotRetried(c, w.operation(k));
    } else {
      InterruptionIsNone(c, w.operation(k));
    }
    if k < maximum {
      AttemptExhausts(c, w, maximum, k + 1);
      assert (forall j | k <= j <= maximum :: FailsRetryably(c, w, maximum, j)) <==>
        FailsRetryably(c, w, maximum, k) && forall j | k + 1 <= j <= maximum :: FailsRetryably(c, w, maximum, j);
    } else {
      assert FailsRetryably(c, w, maximum, k) ==> forall j | k <= j <= maximum :: FailsRetryably(c, w, maximum, j);
    }
  }

  lemma InterruptionIsNone(c: Config, outcome: Outcome)
    requires outcome.Interrupted?
    ensures !InTime(c, outcome) && !WorthRetrying(c, outcome)
  {
  }

  /** Retries are reported exhausted exactly when several attempts were allowed and every one of them ran and failed
      retryably. */
  lemma ExhaustedIff(c: Config, w: World, idempotent: bool)
    requires ValidConfig(c)
    ensures var maximum := if c.enabled && idempotent then c.maxAttempts else 1;
            var run := Executed(c, w, idempotent);
            && (RetryExhausted(c, idempotent, run)
                <==> (maximum > 1 && forall j | 1 <= j <= maximum :: FailsRetryably(c, w, maximum, j)))
            && (RetryExhausted(c, idempotent, run) ==> run.calls == maximum)
  {
    hide Attempt, FailsRetryably;
    AttemptExhausts(c, w, MaximumAttempts(c, idempotent), 1);
  }

  /** The attempt that decides a call: all before it failed retryably, and it is cancelled, is not worth another one, or
      has none left. */
  predicate Decides(c: Config, w: World, maximum: nat, first: nat, k: nat) {
    && first <= k <= maximum
    && (forall j | first <= j < k :: FailsRetryably(c, w, maximum, j))
    && (k < maximum ==> !FailsRetryably(c, w, maximum, k))
  }

  /** How a call ends that attempt `k` decides, of those from attempt `first` on. */
  predicate EndsWith(c: Config, w: World, maximum: nat, first: nat, k: nat, run: Execution)
    requires first <= k <= maximum
  {
    var outcome, cut := w.operation(k), w.cancelledBefore(k);
    && run.calls == k - first + (if cut then 0 else 1) && |run.sleeps| == k - first
    && (run.end.Delivered? <==> !cut && InTime(c, outcome))
    && (run.end.PassedOn? <==> !cut && outcome.Interrupted?)
    && (cut || (WorthRetrying(c, outcome) && k < maximum) ==> run.end == GaveUp(CANCELLED))
    && (!cut && WorthRetrying(c, outcome) && k == maximum ==> run.end.GaveUp? && run.end.last.retryable)
    && (run.end.Delivered? ==>
          run.events != [] && run.events[|run.events| - 1] == Event(Succeeded, k, false, 0.0))
  }

  lemma {:induction false} AttemptEnds(c: Config, w: World, maximum: nat, first: nat) returns (k: nat)
    requires 1 <= first <= maximum
    ensures Decides(c, w, maximum, first, k) && EndsWith(c, w, maximum, first, k, Attempt(c, w, maximum, first))
    decreases maximum - first
  {
    hide FailureOf, WorthRetrying, InTime, RetryDelay;
    if w.operation(first).Interrupted? {
      InterruptionIsNone(c, w.operation(first));
    } else {
      FailureIff(c, w.operation(first));
      InTimeIsNotRetried(c, w.operation(first));
    }
    if OneAttempt(c, w, maximum, first).verdict.Again? {
      k := AttemptEnds(c, w, maximum, first + 1);
    } else {
      k := first;
    }
  }

  lemma InTimeIsNotRetried(c: Config, outcome: Outcome)
    ensures !(InTime(c, outcome) && WorthRetrying(c, outcome))
  {
  }

  lemma OneDecides(c: Config, w: World, maximum: nat, first: nat, k: nat, other: nat)
    requires Decides(c, w, maximum, first, k) && Decides(c, w, maximum, first, other)
    ensures k == other
  {
    hide FailsRetryably;
  }

  /** How every call ends, in terms of outcomes, elapsed times and cancellations: exactly one attempt decides it. The
      call is delivered exactly if that one answers in time without being cancelled before; it is passed on exactly if
      that one is interrupted; it is given up as cancelled if the caller cancels before it, or after it although another
      attempt was left; and given up as retryable if it was the last and worth another one. */
  lemma CallEndsWith(c: Config, w: World, idempotent: bool, k: nat)
    requires ValidConfig(c)
    requires Decides(c, w, if c.enabled && idempotent then c.maxAttempts else 1, 1, k)
    ensures var run := Executed(c, w, idempotent);
            var maximum := if c.enabled && idempotent then c.maxAttempts else 1;
            var outcome, cut := w.operation(k), w.cancelledBefore(k);
            && run.calls == (if cut then k - 1 else k) && |run.sleeps| == k - 1
            && (run.end.Delivered? <==> !cut && InTime(c, outcome))
            && (run.end.PassedOn? <==> !cut && outcome.Interrupted?)
            && (cut || (WorthRetrying(c, outcome) && k < maximum) ==> run.end == GaveUp(CANCELLED))
            && (!cut && WorthRetrying(c, outcome) && k == maximum ==> run.end.GaveUp? && run.end.last.retryable)
            && (run.end.Delivered? ==>
                  run.events != [] && run.events[|run.events| - 1] == Event(Succeeded, k, false, 0.0))
  {
    hide Attempt, Decides, InTime, WorthRetrying;
    var maximum := MaximumAttempts(c, idempotent);
    var found := AttemptEnds(c, w, maximum, 1);
    OneDecides(c, w, maximum, 1, k, found);
  }

  /** There is always such an attempt. */
  lemma SomeAttemptDecides(c: Config, w: World, idempotent: bool) returns (k: nat)
    requires ValidConfig(c)
    ensures Decides(c, w, if c.enabled && idempotent then c.maxAttempts else 1, 1, k)
  {
    k := AttemptEnds(c, w, MaximumAttempts(c, idempotent), 1);
  }

  /** A call is delivered exactly if some attempt answers in time, nobody cancels before it, and all before it fail
      retryably. */
  lemma DeliveredIff(c: Config, w: World, idempotent: bool)
    requires ValidConfig(c)
    ensures var maximum := if c.enabled && idempotent then c.maxAttempts else 1;
                        Executed(c, w, idempotent).end.Delivered? <==> SomeAnswers(c, w, maximum)

  {
    hide Executed, WorthRetrying, InTime;
    var maximum := MaximumAttempts(c, idempotent);
    var k := SomeAttemptDecides(c, w, idempotent);
    CallEndsWith(c, w, idempotent, k);
    if Executed(c, w, idempotent).end.Delivered? { assert AnswersAt(c, w, maximum, k); }
    if j :| 1 <= j <= maximum && AnswersAt(c, w, maximum, j) {
      InTimeIsNotRetried(c, w.operation(j));
      OneDecides(c, w, maximum, 1, k, j);
    }
  }

  predicate SomeAnswers(c: Config, w: World, maximum: nat) {
    exists k | 1 <= k <= maximum :: AnswersAt(c, w, maximum, k)
  }

  predicate AnswersAt(c: Config, w: World, maximum: nat, k: nat) {
    !w.cancelledBefore(k) && InTime(c, w.operation(k)) && forall j | 1 <= j < k :: FailsRetryably(c, w, maximum, j)
  }

  /** What a failure's category tells of the exception, for all that do not bring their own. */
  lemma CategoriesTell(e: Exception)
    requires !e.ExternalCallError?
    ensures var f := Classify(e);
            && (f.retryable <==> Temporary(e))
            && (f.category == RateLimited <==> e.HttpStatus? && e.code == 429)
            && (f.category == TimedOut <==> e.TimeoutException? || (e.HttpStatus? && e.code == 408))
            && (f.category == TemporaryService <==> e.HttpStatus? && e.code in {500, 502, 503, 504})
            && (f.category == AuthenticationFailed <==> e.HttpStatus? && e.code == 401)
            && (f.category == AuthorizationFailed <==> e.HttpStatus? && e.code == 403)
            && (f.category == NotFound <==> e.HttpStatus? && e.code == 404)
            && (f.category == InvalidRequest <==> e.HttpStatus? && e.code == 400)
            && (f.category == TemporaryNetwork <==> e.NetworkException?)
            && (f.category == TemporaryProvider <==> e.ListedTemporary?)
            && (f.category == NonRetryable <==> e.ListedPermanent?)
            && (f.category == InvalidSchema <==> e.SchemaException?)
            && (f.category == ProviderError <==> e.OtherException?)
            && f.category != Cancelled
  {
  }

  // ----- what the events record -----

  /** The attempts of the events of one kind. */
  function AttemptsOf(events: seq<Event>, kind: EventKind): seq<nat> {
    if events == [] then []
    else (if events[0].kind == kind then [events[0].attempt] else []) + AttemptsOf(events[1..], kind)
  }

  function DelaysOf(events: seq<Event>): seq<real> {
    if events == [] then []
    else (if events[0].kind == RetryScheduled then [events[0].delay] else []) + DelaysOf(events[1..])
  }

  lemma {:induction false} RecordsAppend(a: seq<Event>, b: seq<Event>, kind: EventKind)
        ensures AttemptsOf(a + b, kind) == AttemptsOf(a, kind) + AttemptsOf(b, kind)
    ensures DelaysOf(a + b) == DelaysOf(a) + DelaysOf(b)
  {
    DelaysAppend(a, b);
    hide DelaysOf;
    if a == [] {
      assert a + b == b;
    } else {
      assert (a + b)[1..] == a[1..] + b;
      RecordsAppend(a[1..], b, kind);
    }
  }

  lemma {:induction false} DelaysAppend(a: seq<Event>, b: seq<Event>)
    ensures DelaysOf(a + b) == DelaysOf(a) + DelaysOf(b)
  {
    if a == [] {
      assert a + b == b;
    } else {
      assert (a + b)[1..] == a[1..] + b;
      DelaysAppend(a[1..], b);
    }
  }

  function Range(first: nat, count: nat): (r: seq<nat>)
    ensures |r| == count && forall i | 0 <= i < count :: r[i] == first + i
  {
    seq(count, i => first + i)
  }

  /** Only failures and retries are marked retryable, a retry always is, and only a retry has a delay. */
  predicate Tidy(events: seq<Event>) {
    forall e <- events ::
      && (e.retryable ==> e.kind in {Failed, RetryScheduled, Exhausted}) && (e.kind == RetryScheduled ==> e.retryable)
      && (e.kind != RetryScheduled ==> e.delay == 0.0)
  }

  /** One round starts its attempt once, if it calls at all, and announces the delay it will sleep. */
  lemma RoundRecords(c: Config, w: World, maximum: nat, k: nat)
    requires 1 <= k <= maximum
    ensures var r := OneAttempt(c, w, maximum, k);
            && AttemptsOf(r.events, Started) == Range(k, r.calls)
            && (r.verdict.Again? ==> DelaysOf(r.events) == [r.verdict.delay])
            && |DelaysOf(r.events)| <= 1
            && Tidy(r.events)
  {
    hide FailureOf, RetryDelay, AttemptsOf, DelaysOf;
    var events := OneAttempt(c, w, maximum, k).events;
    RecordsOfOne(events[0]);
    if |events| > 1 {
      RecordsOfOne(events[1]);
      RecordsAppend([events[0]], [events[1]], Started);
    }
    if |events| > 2 {
      RecordsOfOne(events[2]);
      RecordsAppend([events[0]] + [events[1]], [events[2]], Started);
      assert events == [events[0]] + [events[1]] + [events[2]];
    } else if |events| == 2 {
      assert events == [events[0]] + [events[1]];
    } else {
      assert events == [events[0]];
    }
  }

  lemma RecordsOfOne(e: Event)
    ensures AttemptsOf([e], Started) == if e.kind == Started then [e.attempt] else []
    ensures DelaysOf([e]) == if e.kind == RetryScheduled then [e.delay] else []
  {
    assert [e][1..] == [];
  }

  /** Every call is recorded as started under its number, 1, 2, 3 and so on, and the caller slept exactly the announced
      delays, but for a last one that a cancellation cut off. */
  lemma {:induction false} AttemptRecords(c: Config, w: World, maximum: nat, k: nat)
    requires 1 <= k <= maximum
    ensures var run := Attempt(c, w, maximum, k);
            && AttemptsOf(run.events, Started) == Range(k, run.calls)
            && run.sleeps <= DelaysOf(run.events) && |DelaysOf(run.events)| <= |run.sleeps| + 1 && Tidy(run.events)
    decreases maximum - k
  {
    hide OneAttempt, AttemptsOf, DelaysOf;
    RoundRecords(c, w, maximum, k);
    var round := OneAttempt(c, w, maximum, k);
    if round.verdict.Again? {
      AttemptRecords(c, w, maximum, k + 1);
      var rest := Attempt(c, w, maximum, k + 1);
      RecordsAppend(round.events, rest.events, Started);
    }
  }

  lemma EventsRecordCalls(c: Config, w: World, idempotent: bool)
    requires ValidConfig(c)
    ensures var run := Executed(c, w, idempotent);
            && AttemptsOf(run.events, Started) == Range(1, run.calls)
            && run.sleeps <= DelaysOf(run.events) && |DelaysOf(run.events)| <= |run.sleeps| + 1 && Tidy(run.events)
  {
    hide Attempt, DelaysOf, AttemptsOf;
    var maximum := MaximumAttempts(c, idempotent);
    var run := Attempt(c, w, maximum, 1);
    AttemptRecords(c, w, maximum, 1);
    if run.end.GaveUp? {
      var closing := Event(Exhausted, run.calls, run.end.last.retryable, 0.0);
      RecordsAppend(run.events, [closing], Started);
      ClosingRecordsNothing(closing);
      assert DelaysOf(run.events) + [] == DelaysOf(run.events) && Range(1, run.calls) + [] == Range(1, run.calls);
    }
  }

  lemma ClosingRecordsNothing(closing: Event)
    requires closing.kind == Exhausted
    ensures AttemptsOf([closing], Started) == [] && DelaysOf([closing]) == []
  {
  }

  /** A status code is retried exactly when it is one of the six listed, and only then does its retry-after count. */
  lemma StatusRetriedIff(code: int, retryAfter: Option<real>)
    ensures Classify(HttpStatus(code, retryAfter)).retryable <==> code in {408, 429, 500, 502, 503, 504}
    ensures Classify(HttpStatus(code, retryAfter)).retryAfter
            == if code in {408, 429, 500, 502, 503, 504} then retryAfter else None
  {
  }
}
