/** The retry decorators of the older adapter modules. Each is the decision
    procedure of `SqlRetry` under another policy: only one exception class
    is caught, a string argument makes the `full_code` lookup raise
    AttributeError, and the list of codes is shorter. The sync Oracle
    module keeps no counter at all, and the async Postgres module wraps
    coroutine functions in a plain function. */
module LegacyRetry {
  import opened Wrappers
  import opened Driver
  import opened SqlRetry

  /** The codes the older Oracle decorators retry on. */
  const LegacyOracleCodes: seq<string> := ["ORA-01033", "DPY-6005"]

  /** The codes the older Postgres decorator names. */
  const LegacyPostgresCodes: seq<string> := ["08001", "08004"]

  /** The async Oracle module: counted, only oracledb.OperationalError, and
      a blocking `sleep(300)` inside the coroutine. */
  const AsyncOraclePolicy := Policy(OracleOperationalOnly, Limited)
  const AsyncOracleWait := Blocking

  /** The sync Oracle module: no counter, only oracledb.OperationalError. */
  const SyncOraclePolicy := Policy(OracleOperationalOnly, Unlimited)

  /** The policy the async Postgres decorator's code and docstring state. */
  const AsyncPostgresPolicy := Policy(PostgresOperationalOnly, Limited)

  /** Without a limit the counter plays no part: the result and the events
      of a run do not depend on where it starts. */
  lemma {:induction false} UnboundedIgnoresCount<T>(p: Policy, c1: nat, c2: nat, limit: nat, codes: seq<string>,
                                                  mode: WaitMode, attempts: seq<Attempt<T>>)
    requires p.bound.Unlimited?
    ensures RunFrom(p, c1, limit, codes, mode, attempts).result == RunFrom(p, c2, limit, codes, mode, attempts).result
    ensures RunFrom(p, c1, limit, codes, mode, attempts).events == RunFrom(p, c2, limit, codes, mode, attempts).events
    decreases |attempts|
  {
    if |attempts| > 0 {
      var a := attempts[0];
      var d1 := if a.nested.Some? then a.nested.value else c1;
      var d2 := if a.nested.Some? then a.nested.value else c2;
      assert Decide(p, a.outcome, d1, limit, codes) == Decide(p, a.outcome, d2, limit, codes);
      assert Next(p, d1) == d1 && Next(p, d2) == d2;
      UnboundedIgnoresCount(p, d1, d2, limit, codes, mode, attempts[1..]);
    }
  }

  /** `wrapper` of the sync Oracle module's `retry`: a `while True` loop
      with no counter, so `retry_limit` plays no part. */
  method RetryUnbounded<T>(attempts: seq<Attempt<T>>) returns (r: CallResult<T>, events: seq<RetryEvent>)
    ensures var run := RunFrom(SyncOraclePolicy, 0, 0, LegacyOracleCodes, Blocking, attempts);
            r == run.result && events == run.events
  {
    events := [];
    var i := 0;
    while i < |attempts|
      invariant 0 <= i <= |attempts|
      invariant var run := RunFrom(SyncOraclePolicy, 0, 0, LegacyOracleCodes, Blocking, attempts);
                var t := RunFrom(SyncOraclePolicy, 0, 0, LegacyOracleCodes, Blocking, attempts[i..]);
                run.result == t.result && run.events == events + t.events
      decreases |attempts| - i
    {
      var a := attempts[i];
      assert attempts[i..][0] == a && attempts[i..][1..] == attempts[i + 1..];
      ghost var c := if a.nested.Some? then a.nested.value else 0;
      ghost var t := RunFrom(SyncOraclePolicy, 0, 0, LegacyOracleCodes, Blocking, attempts[i..]);
      ghost var before := events;
      RunFromFirst(SyncOraclePolicy, 0, 0, LegacyOracleCodes, Blocking, attempts[i..]);
      assert Decide(SyncOraclePolicy, a.outcome, c, 0, LegacyOracleCodes)
          == Decide(SyncOraclePolicy, a.outcome, 0, 0, LegacyOracleCodes);
      match Decide(SyncOraclePolicy, a.outcome, 0, 0, LegacyOracleCodes) {
        case Return =>
          events := events + [Invoke];
          return Success(a.outcome.value), events;
        case Stop(cause) =>
          events := events + [Invoke];
          return Failure(Reraised(SyncOraclePolicy, a.outcome.exn, cause), cause), events;
        case RetryAfterWait =>
          UnboundedIgnoresCount(SyncOraclePolicy, c, 0, 0, LegacyOracleCodes, Blocking, attempts[i + 1..]);
          ghost var rest := RunFrom(SyncOraclePolicy, 0, 0, LegacyOracleCodes, Blocking, attempts[i + 1..]);
          assert Next(SyncOraclePolicy, c) == c;
          assert t.result == rest.result && t.events == [Invoke, Wait(RetryWaitSeconds, Blocking)] + rest.events;
          events := events + [Invoke, Wait(RetryWaitSeconds, Blocking)];
          assert before + ([Invoke, Wait(RetryWaitSeconds, Blocking)] + rest.events) == events + rest.events;
          i := i + 1;
      }
    }
    r := Undetermined;
  }

  /** The unbounded decorator retries any number of transient failures:
      after `n` of them it returns the eventual result, having waited `n`
      times, whatever `n` is. */
  lemma {:induction false} UnboundedRetriesEveryTransient<T>(count: nat, attempts: seq<Attempt<T>>, n: nat)
    requires TransientThenSuccess(OracleOperationalOnly, attempts, n, LegacyOracleCodes)
    ensures var run := RunFrom(SyncOraclePolicy, count, 0, LegacyOracleCodes, Blocking, attempts);
            run.result == Success(attempts[n].outcome.value) && Waits(run.events) == n
    decreases n
  {
    if n > 0 {
      TransientTail(OracleOperationalOnly, attempts, n, LegacyOracleCodes);
      UnboundedRetriesEveryTransient(count, attempts[1..], n - 1);
      EventCounts([Invoke, Wait(RetryWaitSeconds, Blocking)],
                  RunFrom(SyncOraclePolicy, count, 0, LegacyOracleCodes, Blocking, attempts[1..]).events);
    }
  }

  /** In the older modules any caught error whose code is not listed, or
      (when counted) that meets the limit, is re-raised unchanged, and only
      oracledb.OperationalError is caught: a plain DatabaseError with a
      listed code is not retried. */
  lemma OlderOracleCatchesOperationalOnly<T>(p: Policy, count: nat, limit: nat, attempts: seq<Attempt<T>>)
    requires p == AsyncOraclePolicy || p == SyncOraclePolicy
    requires |attempts| > 0 && attempts[0].outcome.Raised? && attempts[0].outcome.exn.OracleDatabase?
    ensures var run := RunFrom(p, count, limit, LegacyOracleCodes, Blocking, attempts);
            run.result == Failure(attempts[0].outcome.exn, Uncaught) && run.events == [Invoke]
  {
  }

  /** A string argument makes the older decorators fail on `full_code`:
      the caller sees AttributeError instead of the driver's error. */
  lemma OlderDecoratorsMessageBecomesAttributeError<T>(p: Policy, count: nat, limit: nat, codes: seq<string>,
                                                       attempts: seq<Attempt<T>>)
    requires p.catches != DriverErrors
    requires |attempts| > 0 && attempts[0].outcome.Raised?
    requires Caught(p.catches, attempts[0].outcome.exn) && attempts[0].outcome.exn.arg.Message?
    ensures var run := RunFrom(p, count, limit, codes, Blocking, attempts);
            run.result.Failure? && run.result.exn.AttributeError? && run.result.cause == PlainMessage
  {
  }

  /** `wrapper` of the async Postgres module's `retry` as written: a plain
      function that returns the coroutine `f(self, ...)` without awaiting
      it. The try clause therefore covers only the creation of the
      coroutine, which raises nothing; whatever the body does happens when
      the caller awaits, outside the try. */
  function SyncWrapperRun<T>(attempts: seq<Attempt<T>>): (run: Trace<T>)
    ensures Invocations(run.events) <= 1 && Waits(run.events) == 0
    ensures |attempts| > 0 && attempts[0].outcome.Raised? ==>
              run.result == Failure(attempts[0].outcome.exn, Unguarded)
  {
    if |attempts| == 0 then Trace(Undetermined, [], 0)
    else match attempts[0].outcome
      case Returned(v) => Trace(Success(v), [Invoke], 0)
      case Raised(e) => Trace(Failure(e, Unguarded), [Invoke], 0)
  }

  /** The retry the async Postgres decorator's docstring promises, as an
      awaiting wrapper would give it: a transient 08001 failure followed by
      a success is retried once, while the wrapper as written hands the
      failure to the caller. */
  lemma {:induction false} AsyncPostgresTransientNotRetried<T>(limit: nat, attempts: seq<Attempt<T>>)
    requires limit >= 1
    requires TransientThenSuccess(PostgresOperationalOnly, attempts, 1, LegacyPostgresCodes)
    ensures SyncWrapperRun(attempts).result.Failure?
    ensures var intended := RunFrom(AsyncPostgresPolicy, 0, limit, LegacyPostgresCodes, Cooperative, attempts);
            intended.result == Success(attempts[1].outcome.value) && Waits(intended.events) == 1
  {
    TransientRetriesExactly(AsyncPostgresPolicy, 0, limit, LegacyPostgresCodes, Cooperative, attempts, 1);
  }
}
