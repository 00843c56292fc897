/** The `retry` and `async_retry` decorators of the connection classes.

    The decorator resets the connection's attempt counter, then calls the
    wrapped method until it returns or raises something the policy does not
    retry. Each call of the wrapped method is one `Attempt`: what it
    returned or raised and, when the method itself called another decorated
    method of the same connection, the value it left in the shared counter
    (every decorated call resets that counter first). The model runs over a
    finite list of attempts supplied by the caller; when the list runs out
    before the loop ends, the result is `Undetermined`. */
module SqlRetry {
  import opened Wrappers
  import opened Driver

  /** What one call of the wrapped method did. */
  datatype Outcome<T> = Returned(value: T) | Raised(exn: Exn)

  /** One call of the wrapped method. `nested` is the counter value left by
      nested decorated calls on the same connection, if there were any. */
  datatype Attempt<T> = Attempt(outcome: Outcome<T>, nested: Option<nat>)

  /** The wait primitive: `time.sleep` or `asyncio.sleep`. */
  datatype WaitMode = Blocking | Cooperative

  datatype RetryEvent = Invoke | Wait(seconds: nat, mode: WaitMode)

  /** Why a decorated call ended with an exception. The two last causes are
      the ones the source logs differently. */
  datatype Cause =
    | Uncaught            // not one of the caught exception classes
    | PlainMessage        // its argument is a plain string
    | NonRetryable        // its code is not in retry_error_codes
    | LimitReached        // its code is retryable but the counter is at the limit
    | Unguarded           // raised where no decorator's try clause is active

  datatype CallResult<T> =
    | Success(value: T)
    | Failure(exn: Exn, cause: Cause)
    | Undetermined

  /** What the decorator does with one outcome. */
  datatype Decision = Return | RetryAfterWait | Stop(cause: Cause)

  /** The wait between attempts, in seconds. */
  const RetryWaitSeconds: nat := 300

  /** Which exception classes a decorator's `except` clause names. */
  datatype Catches =
    | DriverErrors             // (oracledb.OperationalError, oracledb.DatabaseError, psycopg.OperationalError)
    | OracleOperationalOnly    // oracledb.OperationalError
    | PostgresOperationalOnly  // psycopg.OperationalError

  /** Whether the decorator counts retries against `retry_limit`. */
  datatype Bound = Limited | Unlimited

  /** The variant of the decorator. The current decorators use
      `Policy(DriverErrors, Limited)`. */
  datatype Policy = Policy(catches: Catches, bound: Bound)

  const CurrentPolicy := Policy(DriverErrors, Limited)

  predicate Caught(c: Catches, e: Exn)
  {
    match c
    case DriverErrors => e.OracleOperational? || e.OracleDatabase? || e.PostgresOperational?
    case OracleOperationalOnly => e.OracleOperational?
    case PostgresOperationalOnly => e.PostgresOperational?
  }

  function Decide<T>(p: Policy, o: Outcome<T>, count: nat, limit: nat, codes: seq<string>): Decision
  {
    match o
    case Returned(_) => Return
    case Raised(e) =>
      if !Caught(p.catches, e) then Stop(Uncaught)
      else match e.arg
        case Message(_) => Stop(PlainMessage)
        case Coded(code) =>
          if code in codes && (p.bound.Unlimited? || count < limit) then RetryAfterWait
          else if code !in codes then Stop(NonRetryable)
          else Stop(LimitReached)
  }

  /** The exception that leaves the decorator. The current decorators test
      for a string argument and re-raise the original; the older ones read
      `full_code` from it, which raises AttributeError on a string. */
  function Reraised(p: Policy, e: Exn, cause: Cause): Exn
  {
    if cause == PlainMessage && p.catches != DriverErrors
    then AttributeError("'str' object has no attribute 'full_code'")
    else e
  }

  /** The counter after a retry: one more under a limit, untouched without. */
  function Next(p: Policy, count: nat): nat
  {
    if p.bound.Limited? then count + 1 else count
  }

  /** The whole run: its result, what it did, and the counter at the end. */
  datatype Trace<T> = Trace(result: CallResult<T>, events: seq<RetryEvent>, count: nat)

  /** The decorator's loop, from counter value `count`, over `attempts`. */
  function RunFrom<T>(p: Policy, count: nat, limit: nat, codes: seq<string>, mode: WaitMode,
                      attempts: seq<Attempt<T>>): Trace<T>
    decreases |attempts|
  {
    if |attempts| == 0 then Trace(Undetermined, [], count)
    else
      var a := attempts[0];
      var c := if a.nested.Some? then a.nested.value else count;
      match Decide(p, a.outcome, c, limit, codes)
      case Return => Trace(Success(a.outcome.value), [Invoke], c)
      case Stop(cause) => Trace(Failure(Reraised(p, a.outcome.exn, cause), cause), [Invoke], c)
      case RetryAfterWait =>
        var rest := RunFrom(p, Next(p, c), limit, codes, mode, attempts[1..]);
        Trace(rest.result, [Invoke, Wait(RetryWaitSeconds, mode)] + rest.events, rest.count)
  }

  /** One step of the loop: what the first attempt decides, and the run of
      the remaining attempts after a wait. */
  lemma RunFromFirst<T>(p: Policy, count: nat, limit: nat, codes: seq<string>, mode: WaitMode,
                        attempts: seq<Attempt<T>>)
    requires |attempts| > 0
    ensures var a := attempts[0];
            var c := if a.nested.Some? then a.nested.value else count;
            var t := RunFrom(p, count, limit, codes, mode, attempts);
            var d := Decide(p, a.outcome, c, limit, codes);
            (d.Return? ==> t == Trace(Success(a.outcome.value), [Invoke], c)) &&
            (d.Stop? ==> t == Trace(Failure(Reraised(p, a.outcome.exn, d.cause), d.cause), [Invoke], c)) &&
            (d.RetryAfterWait? ==>
               var rest := RunFrom(p, Next(p, c), limit, codes, mode, attempts[1..]);
               t == Trace(rest.result, [Invoke, Wait(RetryWaitSeconds, mode)] + rest.events, rest.count))
  {
  }

  /** The attempt counter and retry settings that every connection class
      keeps as attributes (`_retry_count`, `retry_limit`,
      `retry_error_codes`), together with the decorator variant its module
      applies. A connection owns one; all decorated methods of that
      connection share it. */
  class RetryCounter {
    var retryCount: nat
    var retryLimit: nat
    var retryErrorCodes: seq<string>
    const policy: Policy

    constructor (p: Policy, limit: nat, codes: seq<string>)
      ensures policy == p && retryCount == 0 && retryLimit == limit && retryErrorCodes == codes
    {
      policy := p;
      retryCount := 0;
      retryLimit := limit;
      retryErrorCodes := codes;
    }

    /** `wrapper(self, ...)`: `retry` with mode Blocking, `async_retry` with
        mode Cooperative. */
    method Retry<T>(mode: WaitMode, attempts: seq<Attempt<T>>) returns (r: CallResult<T>, events: seq<RetryEvent>)
      modifies this`retryCount
      ensures RunFrom(policy, 0, retryLimit, retryErrorCodes, mode, attempts) == Trace(r, events, retryCount)
    {
      retryCount := 0;
      events := [];
      var i := 0;
      while i < |attempts|
        invariant 0 <= i <= |attempts|
        invariant RunFrom(policy, 0, retryLimit, retryErrorCodes, mode, attempts)
               == var t := RunFrom(policy, retryCount, retryLimit, retryErrorCodes, mode, attempts[i..]);
                  Trace(t.result, events + t.events, t.count)
        decreases |attempts| - i
      {
        var a := attempts[i];
        assert attempts[i..][0] == a && attempts[i..][1..] == attempts[i + 1..];
        ghost var t := RunFrom(policy, retryCount, retryLimit, retryErrorCodes, mode, attempts[i..]);
        ghost var before := events;
        if a.nested.Some? {
          retryCount := a.nested.value;
        }
        var d := Decide(policy, a.outcome, retryCount, retryLimit, retryErrorCodes);
        match d {
          case Return =>
            assert t == Trace(Success(a.outcome.value), [Invoke], retryCount);
            events := events + [Invoke];
            return Success(a.outcome.value), events;
          case Stop(cause) =>
            assert t == Trace(Failure(Reraised(policy, a.outcome.exn, cause), cause), [Invoke], retryCount);
            events := events + [Invoke];
            return Failure(Reraised(policy, a.outcome.exn, cause), cause), events;
          case RetryAfterWait =>
            retryCount := Next(policy, retryCount);
            ghost var rest := RunFrom(policy, retryCount, retryLimit, retryErrorCodes, mode, attempts[i + 1..]);
            assert t == Trace(rest.result, [Invoke, Wait(RetryWaitSeconds, mode)] + rest.events, rest.count);
            events := events + [Invoke, Wait(RetryWaitSeconds, mode)];
            assert before + ([Invoke, Wait(RetryWaitSeconds, mode)] + rest.events) == events + rest.events;
            i := i + 1;
        }
      }
      r := Undetermined;
    }
  }

  /** Number of calls of the wrapped method. */
  function Invocations(events: seq<RetryEvent>): nat
  {
    if |events| == 0 then 0
    else (if events[0].Invoke? then 1 else 0) + Invocations(events[1..])
  }

  /** Number of waits. */
  function Waits(events: seq<RetryEvent>): nat
  {
    if |events| == 0 then 0
    else (if events[0].Wait? then 1 else 0) + Waits(events[1..])
  }

  lemma {:induction false} EventCounts(a: seq<RetryEvent>, b: seq<RetryEvent>)
    ensures Invocations(a + b) == Invocations(a) + Invocations(b)
    ensures Waits(a + b) == Waits(a) + Waits(b)
  {
    if |a| > 0 {
      assert (a + b)[1..] == a[1..] + b;
      EventCounts(a[1..], b);
    } else {
      assert a + b == b;
    }
  }

  predicate NoNesting<T>(attempts: seq<Attempt<T>>)
  {
    forall k :: 0 <= k < |attempts| ==> attempts[k].nested.None?
  }

  /** A success on the first call is returned unchanged after one call and
      no wait. */
  lemma FirstSuccessReturned<T>(p: Policy, count: nat, limit: nat, codes: seq<string>, mode: WaitMode,
                                attempts: seq<Attempt<T>>)
    requires |attempts| > 0 && attempts[0].outcome.Returned?
    ensures RunFrom(p, count, limit, codes, mode, attempts).result == Success(attempts[0].outcome.value)
    ensures RunFrom(p, count, limit, codes, mode, attempts).events == [Invoke]
  {
  }

  /** Under the current decorators, an exception outside the caught classes
      (a validation ValueError, say), or a caught one whose argument is a
      plain string, is re-raised unchanged at once: one call, no wait. */
  lemma FatalAtOnce<T>(count: nat, limit: nat, codes: seq<string>, mode: WaitMode,
                       attempts: seq<Attempt<T>>)
    requires |attempts| > 0 && attempts[0].outcome.Raised?
    requires var e := attempts[0].outcome.exn; !Caught(DriverErrors, e) || e.arg.Message?
    ensures var run := RunFrom(CurrentPolicy, count, limit, codes, mode, attempts);
            var e := attempts[0].outcome.exn;
            run.result == Failure(e, if Caught(DriverErrors, e) then PlainMessage else Uncaught) &&
            run.events == [Invoke]
  {
  }

  /** A re-raised coded error is non-retryable exactly when its code is not
      in the list, and is re-raised for the limit only when the counter has
      reached the limit; in both cases the original exception leaves the
      decorator. The counter never passes the limit. */
  lemma {:induction false} FailureCauses<T>(p: Policy, count: nat, limit: nat, codes: seq<string>, mode: WaitMode,
                                            attempts: seq<Attempt<T>>)
    requires count <= limit
    requires forall k :: 0 <= k < |attempts| ==> attempts[k].nested.None? || attempts[k].nested.value <= limit
    ensures var run := RunFrom(p, count, limit, codes, mode, attempts);
            run.count <= limit &&
            (run.result.Failure? && run.result.cause == NonRetryable ==>
               Caught(p.catches, run.result.exn) && run.result.exn.arg.Coded? &&
               run.result.exn.arg.fullCode !in codes) &&
            (run.result.Failure? && run.result.cause == LimitReached ==>
               p.bound.Limited? && Caught(p.catches, run.result.exn) && run.result.exn.arg.Coded? &&
               run.result.exn.arg.fullCode in codes && run.count == limit)
    decreases |attempts|
  {
    if |attempts| > 0 {
      var a := attempts[0];
      var c := if a.nested.Some? then a.nested.value else count;
      if Decide(p, a.outcome, c, limit, codes) == RetryAfterWait {
        FailureCauses(p, Next(p, c), limit, codes, mode, attempts[1..]);
      }
    }
  }

  /** Without nested resets, a counted decorated call entered with counter
      `count` calls the wrapped method at most `limit - count + 1` times and
      waits at most `limit - count` times, one wait per step of the
      counter; given that many attempts it always ends. */
  lemma {:induction false} BoundedWithoutNesting<T>(p: Policy, count: nat, limit: nat, codes: seq<string>,
                                                  mode: WaitMode, attempts: seq<Attempt<T>>)
    requires p.bound.Limited? && count <= limit && NoNesting(attempts)
    ensures var run := RunFrom(p, count, limit, codes, mode, attempts);
            Invocations(run.events) <= limit - count + 1 &&
            Waits(run.events) <= limit - count &&
            Waits(run.events) == run.count - count &&
            (|attempts| > limit - count ==> !run.result.Undetermined?)
    decreases |attempts|
  {
    if |attempts| > 0 {
      var a := attempts[0];
      assert a.nested.None?;
      if Decide(p, a.outcome, count, limit, codes) == RetryAfterWait {
        BoundedStep(p, count, limit, codes, mode, attempts);
        assert NoNesting(attempts[1..]);
        BoundedWithoutNesting(p, count + 1, limit, codes, mode, attempts[1..]);
      } else {
        BoundedLast(p, count, limit, codes, mode, attempts);
      }
    }
  }

  /** A retry without a nested reset: one call, one wait, one step of the
      counter, then the rest of the run. */
  lemma BoundedStep<T>(p: Policy, count: nat, limit: nat, codes: seq<string>,
                       mode: WaitMode, attempts: seq<Attempt<T>>)
    requires p.bound.Limited? && |attempts| > 0 && attempts[0].nested.None?
    requires Decide(p, attempts[0].outcome, count, limit, codes) == RetryAfterWait
    ensures count < limit
    ensures var run := RunFrom(p, count, limit, codes, mode, attempts);
            var rest := RunFrom(p, count + 1, limit, codes, mode, attempts[1..]);
            run.result == rest.result && run.count == rest.count &&
            Invocations(run.events) == Invocations(rest.events) + 1 &&
            Waits(run.events) == Waits(rest.events) + 1
  {
    assert Next(p, count) == count + 1;
    var rest := RunFrom(p, count + 1, limit, codes, mode, attempts[1..]);
    assert RunFrom(p, count, limit, codes, mode, attempts)
        == Trace(rest.result, [Invoke, Wait(RetryWaitSeconds, mode)] + rest.events, rest.count);
    EventCounts([Invoke, Wait(RetryWaitSeconds, mode)], rest.events);
  }

  /** Any other decision ends the run after one call and no wait. */
  lemma BoundedLast<T>(p: Policy, count: nat, limit: nat, codes: seq<string>,
                       mode: WaitMode, attempts: seq<Attempt<T>>)
    requires |attempts| > 0 && attempts[0].nested.None?
    requires Decide(p, attempts[0].outcome, count, limit, codes) != RetryAfterWait
    ensures var run := RunFrom(p, count, limit, codes, mode, attempts);
            !run.result.Undetermined? && run.count == count &&
            Invocations(run.events) == 1 && Waits(run.events) == 0
  {
    assert RunFrom(p, count, limit, codes, mode, attempts).events == [Invoke];
    assert Invocations([Invoke]) == 1 && Waits([Invoke]) == 0;
  }

  /** The bound for a call of the current decorators, which start from a
      counter of 0: at most `retry_limit + 1` calls and `retry_limit`
      waits. */
  lemma DecoratedCallBound<T>(limit: nat, codes: seq<string>, mode: WaitMode, attempts: seq<Attempt<T>>)
    requires NoNesting(attempts)
    ensures var run := RunFrom(CurrentPolicy, 0, limit, codes, mode, attempts);
            Invocations(run.events) <= limit + 1 && Waits(run.events) <= limit
  {
    BoundedWithoutNesting(CurrentPolicy, 0, limit, codes, mode, attempts);
  }

  /** `n` failures with a caught, listed code, then a success, no nesting. */
  predicate TransientThenSuccess<T>(c: Catches, attempts: seq<Attempt<T>>, n: nat, codes: seq<string>)
  {
    |attempts| == n + 1 && NoNesting(attempts) &&
    attempts[n].outcome.Returned? &&
    forall k :: 0 <= k < n ==>
      attempts[k].outcome.Raised? && Caught(c, attempts[k].outcome.exn) &&
      attempts[k].outcome.exn.arg.Coded? && attempts[k].outcome.exn.arg.fullCode in codes
  }

  lemma TransientTail<T>(c: Catches, attempts: seq<Attempt<T>>, n: nat, codes: seq<string>)
    requires n > 0 && TransientThenSuccess(c, attempts, n, codes)
    ensures TransientThenSuccess(c, attempts[1..], n - 1, codes)
  {
    var rest := attempts[1..];
    forall k | 0 <= k < n - 1
      ensures rest[k] == attempts[k + 1]
    {
    }
  }

  /** After `n` transient failures, a counted call is retried exactly
      `min(n, limit - count)` times: it succeeds when the budget covers all
      of them, and otherwise re-raises the transient error met at the
      limit. */
  lemma {:induction false} TransientRetriesExactly<T>(p: Policy, count: nat, limit: nat, codes: seq<string>,
                                                    mode: WaitMode, attempts: seq<Attempt<T>>, n: nat)
    requires p.bound.Limited? && count <= limit
    requires TransientThenSuccess(p.catches, attempts, n, codes)
    ensures var run := RunFrom(p, count, limit, codes, mode, attempts);
            Waits(run.events) == (if n <= limit - count then n else limit - count) &&
            (n <= limit - count ==> run.result == Success(attempts[n].outcome.value)) &&
            (n > limit - count ==>
               run.result.Failure? && run.result.cause == LimitReached &&
               run.result.exn == attempts[limit - count].outcome.exn)
    decreases n
  {
    if n > 0 && count < limit {
      TransientStep(p, count, limit, codes, mode, attempts, n);
      TransientTail(p.catches, attempts, n, codes);
      TransientRetriesExactly(p, count + 1, limit, codes, mode, attempts[1..], n - 1);
    } else {
      TransientLast(p, count, limit, codes, mode, attempts, n);
    }
  }

  /** One transient failure under the limit: one wait, then the rest. */
  lemma TransientStep<T>(p: Policy, count: nat, limit: nat, codes: seq<string>,
                         mode: WaitMode, attempts: seq<Attempt<T>>, n: nat)
    requires p.bound.Limited? && count < limit && n > 0
    requires TransientThenSuccess(p.catches, attempts, n, codes)
    ensures var run := RunFrom(p, count, limit, codes, mode, attempts);
            var rest := RunFrom(p, count + 1, limit, codes, mode, attempts[1..]);
            run.result == rest.result && Waits(run.events) == Waits(rest.events) + 1
  {
    var a := attempts[0];
    assert a.nested.None?;
    assert Decide(p, a.outcome, count, limit, codes) == RetryAfterWait;
    var rest := RunFrom(p, count + 1, limit, codes, mode, attempts[1..]);
    assert RunFrom(p, count, limit, codes, mode, attempts)
        == Trace(rest.result, [Invoke, Wait(RetryWaitSeconds, mode)] + rest.events, rest.count);
    EventCounts([Invoke, Wait(RetryWaitSeconds, mode)], rest.events);
  }

  /** The success, or the transient failure met at the limit, ends the run
      with no wait. */
  lemma TransientLast<T>(p: Policy, count: nat, limit: nat, codes: seq<string>,
                         mode: WaitMode, attempts: seq<Attempt<T>>, n: nat)
    requires p.bound.Limited? && count <= limit && (n == 0 || count == limit)
    requires TransientThenSuccess(p.catches, attempts, n, codes)
    ensures var run := RunFrom(p, count, limit, codes, mode, attempts);
            Waits(run.events) == 0 &&
            (n == 0 ==> run.result == Success(attempts[0].outcome.value)) &&
            (n > 0 ==> run.result.Failure? && run.result.cause == LimitReached &&
                       run.result.exn == attempts[0].outcome.exn)
  {
    var a := attempts[0];
    assert a.nested.None?;
    assert Waits([Invoke]) == 0;
    if n > 0 {
      assert Decide(p, a.outcome, count, limit, codes) == Stop(LimitReached);
      assert Reraised(p, a.outcome.exn, LimitReached) == a.outcome.exn;
    }
  }

  /** A call of the wrapped method that, by calling another decorated method
      of the same connection, leaves the shared counter at 0 again and then
      fails with a caught, listed code. */
  predicate ResetsAndRetries<T>(c: Catches, a: Attempt<T>, codes: seq<string>)
  {
    a.nested == Some(0) && a.outcome.Raised? && Caught(c, a.outcome.exn) &&
    a.outcome.exn.arg.Coded? && a.outcome.exn.arg.fullCode in codes
  }

  /** Nested decorated calls defeat the limit: when every call resets the
      shared counter and then fails with a listed code, the decorator waits
      once per call, however many calls there are, and never stops. In
      single-connection mode this is a decorated method whose
      `_get_connection` reconnects through the decorated `_connect` before
      its statement fails. */
  lemma {:induction false} NestedResetDefeatsLimit<T>(p: Policy, count: nat, limit: nat, codes: seq<string>,
                                                     mode: WaitMode, attempts: seq<Attempt<T>>)
    requires p.bound.Limited? && limit >= 1
    requires forall k :: 0 <= k < |attempts| ==> ResetsAndRetries(p.catches, attempts[k], codes)
    ensures var run := RunFrom(p, count, limit, codes, mode, attempts);
            Waits(run.events) == |attempts| && run.result.Undetermined?
    decreases |attempts|
  {
    if |attempts| > 0 {
      NestedResetDefeatsLimit(p, 1, limit, codes, mode, attempts[1..]);
      EventCounts([Invoke, Wait(RetryWaitSeconds, mode)], RunFrom(p, 1, limit, codes, mode, attempts[1..]).events);
    }
  }

  /** `retry` and `async_retry` take the same decisions: their runs differ
      only in which wait primitive each wait event uses. */
  lemma {:induction false} AsyncRetrySameDecisions<T>(p: Policy, count: nat, limit: nat, codes: seq<string>,
                                                     attempts: seq<Attempt<T>>)
    ensures var s := RunFrom(p, count, limit, codes, Blocking, attempts);
            var a := RunFrom(p, count, limit, codes, Cooperative, attempts);
            s.result == a.result && s.count == a.count && |s.events| == |a.events| &&
            forall k :: 0 <= k < |s.events| ==>
              (s.events[k] == Invoke <==> a.events[k] == Invoke) &&
              (s.events[k].Wait? <==> a.events[k] == Wait(RetryWaitSeconds, Cooperative)) &&
              (a.events[k].Wait? <==> s.events[k] == Wait(RetryWaitSeconds, Blocking))
    decreases |attempts|
  {
    if |attempts| > 0 {
      var a := attempts[0];
      var c := if a.nested.Some? then a.nested.value else count;
      if Decide(p, a.outcome, c, limit, codes) == RetryAfterWait {
        AsyncRetrySameDecisions(p, Next(p, c), limit, codes, attempts[1..]);
      }
    }
  }
}
