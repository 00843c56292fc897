/** The generic helpers of the package: `divide_chunks`, which yields the
    slices `list_obj[i : i + size]` for `i` in `range(0, len, size)`, and a
    `retry` decorator that calls a function at most `max_attempts` times,
    sleeping an exponentially growing delay (plus a random jitter) between
    attempts. The sync and async wrappers of the decorator behave the same
    and are modelled once. */
module Helpers {
  import opened Wrappers
  import opened Driver

  const MaxAttempts: int := 5
  const Delay: int := 2
  const Backoff: int := 2
  const Jitter: int := 3

  function Min(a: int, b: int): int
  {
    if a <= b then a else b
  }

  /** The slices `list_obj[i : i + size]` for `i` in `range(0, len, size)`,
      for a positive step, taken from the front. */
  function Chunks<T>(xs: seq<T>, size: nat): seq<seq<T>>
    requires size > 0
    decreases |xs|
  {
    if |xs| == 0 then []
    else
      var m := Min(size, |xs|);
      [xs[..m]] + Chunks(xs[m..], size)
  }

  /** `divide_chunks(list_obj, size)`: a zero step makes `range` raise
      ValueError, and a negative step yields nothing. */
  function DivideChunks<T>(xs: seq<T>, size: int): (r: Result<seq<seq<T>>, Exn>)
    ensures size == 0 <==> r.Err?
    ensures size < 0 ==> r == Ok([])
  {
    if size == 0 then Err(ValueError("range() arg 3 must not be zero"))
    else if size < 0 then Ok([])
    else Ok(Chunks(xs, size))
  }

  function Flatten<T>(chunks: seq<seq<T>>): seq<T>
  {
    if |chunks| == 0 then [] else chunks[0] + Flatten(chunks[1..])
  }

  /** Joining the chunks back together gives the input list. */
  lemma {:induction false} ChunksConcatenate<T>(xs: seq<T>, size: nat)
    requires size > 0
    ensures Flatten(Chunks(xs, size)) == xs
    decreases |xs|
  {
    if |xs| > 0 {
      var m := Min(size, |xs|);
      var cs := Chunks(xs, size);
      ChunksConcatenate(xs[m..], size);
      assert cs[1..] == Chunks(xs[m..], size);
      assert xs == xs[..m] + xs[m..];
    }
  }

  /** Every chunk but the last has exactly `size` elements and the last
      has between 1 and `size`; an empty list has no chunks; and the
      number of chunks is the ceiling of `len / size`. */
  lemma {:induction false} ChunkSizes<T>(xs: seq<T>, size: nat)
    requires size > 0
    ensures var cs := Chunks(xs, size);
            (|xs| == 0 <==> |cs| == 0) &&
            (forall k :: 0 <= k < |cs| - 1 ==> |cs[k]| == size) &&
            (|cs| > 0 ==> 1 <= |cs[|cs| - 1]| <= size) &&
            (|cs| - 1) * size < |xs| <= |cs| * size
    decreases |xs|
  {
    var cs := Chunks(xs, size);
    if |xs| > 0 {
      var m := Min(size, |xs|);
      var rest := Chunks(xs[m..], size);
      ChunkSizes(xs[m..], size);
      assert cs == [xs[..m]] + rest;
      assert |cs| == |rest| + 1;
      forall k | 0 <= k < |cs| - 1
        ensures |cs[k]| == size
      {
        if k > 0 {
          assert cs[k] == rest[k - 1];
        } else {
          assert |rest| > 0;
        }
      }
      assert |cs| * size == |rest| * size + size;
      if |rest| == 0 {
        assert |xs| <= size;
      }
    }
  }

  /** The start of the `k`-th chunk, counted by additions. */
  function Offset(k: nat, size: nat): nat
  {
    if k == 0 then 0 else Offset(k - 1, size) + size
  }

  lemma {:induction false} OffsetIsProduct(k: nat, size: nat)
    ensures Offset(k, size) == k * size
  {
    if k > 0 {
      OffsetIsProduct(k - 1, size);
      assert k * size == (k - 1) * size + size;
    }
  }

  lemma {:induction false} ChunkAtOffset<T>(xs: seq<T>, size: nat, k: nat)
    requires size > 0 && k < |Chunks(xs, size)|
    ensures Offset(k, size) < |xs|
    ensures Chunks(xs, size)[k] == xs[Offset(k, size)..Min(Offset(k, size) + size, |xs|)]
    decreases |xs|
  {
    var m := Min(size, |xs|);
    var ys := xs[m..];
    assert Chunks(xs, size) == [xs[..m]] + Chunks(ys, size);
    if k > 0 {
      ChunkAtOffset(ys, size, k - 1);
      var j := Offset(k - 1, size);
      var hi := Min(j + size, |ys|);
      assert m == size && hi + size == Min(Offset(k, size) + size, |xs|);
      SliceOfSuffix(xs, m, j, hi);
    }
  }

  lemma SliceOfSuffix<T>(xs: seq<T>, m: nat, a: nat, b: nat)
    requires m <= |xs| && a <= b <= |xs| - m
    ensures xs[m..][a..b] == xs[m + a..m + b]
  {
  }

  /** The `k`-th chunk is the slice `list_obj[k * size : k * size + size]`,
      cut at the end of the list: the chunks are exactly the slices of the
      `range` loop. */
  lemma ChunkIsRangeSlice<T>(xs: seq<T>, size: nat, k: nat)
    requires size > 0 && k < |Chunks(xs, size)|
    ensures k * size < |xs|
    ensures Chunks(xs, size)[k] == xs[k * size..Min(k * size + size, |xs|)]
  {
    ChunkAtOffset(xs, size, k);
    OffsetIsProduct(k, size);
  }

  /** What one call of the wrapped function does: return a value, raise
      one of the listed `exceptions`, or raise something else. */
  datatype Attempted<T> = Value(v: T) | Listed(e: Exn) | Unlisted(e: Exn)

  /** A run of the backoff wrapper: what it returns (`None` when it never
      calls the function) or raises, how many calls it made, and the base
      delay of each sleep, before the jitter is added. */
  datatype BackoffTrace<T> = BackoffTrace(result: Result<Option<T>, Exn>, calls: nat, sleeps: seq<int>)

  /** The wrapper from attempt `k` on, with `wait` the current base
      delay. */
  function BackoffRun<T>(k: nat, maxAttempts: int, wait: int, backoff: int, outcomes: seq<Attempted<T>>): BackoffTrace<T>
    requires maxAttempts <= |outcomes|
    decreases maxAttempts - k
  {
    if k >= maxAttempts then BackoffTrace(Ok(None), 0, [])
    else match outcomes[k]
      case Value(v) => BackoffTrace(Ok(Some(v)), 1, [])
      case Unlisted(e) => BackoffTrace(Err(e), 1, [])
      case Listed(e) =>
        if k == maxAttempts - 1 then BackoffTrace(Err(e), 1, [])
        else
          var rest := BackoffRun(k + 1, maxAttempts, wait * backoff, backoff, outcomes);
          BackoffTrace(rest.result, rest.calls + 1, [wait] + rest.sleeps)
  }

  /** `wrapper`: `outcomes[k]` is what the `k`-th call does. */
  method BackoffRetry<T>(maxAttempts: int, delay: int, backoff: int, outcomes: seq<Attempted<T>>)
    returns (r: Result<Option<T>, Exn>, calls: nat, sleeps: seq<int>)
    requires maxAttempts <= |outcomes|
    ensures BackoffRun(0, maxAttempts, delay, backoff, outcomes) == BackoffTrace(r, calls, sleeps)
  {
    var waitTime := delay;
    calls := 0;
    sleeps := [];
    var attempt := 0;
    while attempt < maxAttempts
      invariant 0 <= attempt && (maxAttempts >= 0 ==> attempt <= maxAttempts)
      invariant calls == attempt && |sleeps| == attempt
      invariant var t := BackoffRun(attempt, maxAttempts, waitTime, backoff, outcomes);
                BackoffRun(0, maxAttempts, delay, backoff, outcomes)
                == BackoffTrace(t.result, calls + t.calls, sleeps + t.sleeps)
      decreases maxAttempts - attempt
    {
      ghost var t := BackoffRun(attempt, maxAttempts, waitTime, backoff, outcomes);
      calls := calls + 1;
      match outcomes[attempt] {
        case Value(v) =>
          assert t == BackoffTrace(Ok(Some(v)), 1, []);
          return Ok(Some(v)), calls, sleeps;
        case Unlisted(e) =>
          assert t == BackoffTrace(Err(e), 1, []);
          return Err(e), calls, sleeps;
        case Listed(e) =>
          if attempt == maxAttempts - 1 {
            assert t == BackoffTrace(Err(e), 1, []);
            return Err(e), calls, sleeps;
          }
          ghost var rest := BackoffRun(attempt + 1, maxAttempts, waitTime * backoff, backoff, outcomes);
          assert t == BackoffTrace(rest.result, rest.calls + 1, [waitTime] + rest.sleeps);
          assert sleeps + t.sleeps == (sleeps + [waitTime]) + rest.sleeps;
          sleeps := sleeps + [waitTime];
          waitTime := waitTime * backoff;
      }
      attempt := attempt + 1;
    }
    r := Ok(None);
  }

  function Pow(b: int, k: nat): int
  {
    if k == 0 then 1 else b * Pow(b, k - 1)
  }

  /** From attempt `k`, the wrapper makes at most `maxAttempts - k` calls
      and sleeps once fewer than it calls; the `j`-th sleep's base delay is
      `wait * backoff^j`. */
  lemma {:induction false} BackoffRunShape<T>(k: nat, maxAttempts: int, wait: int, backoff: int, outcomes: seq<Attempted<T>>)
    requires maxAttempts <= |outcomes|
    ensures var t := BackoffRun(k, maxAttempts, wait, backoff, outcomes);
            (k >= maxAttempts ==> t.calls == 0) &&
            (k < maxAttempts ==> 1 <= t.calls <= maxAttempts - k && |t.sleeps| == t.calls - 1) &&
            forall j :: 0 <= j < |t.sleeps| ==> t.sleeps[j] == wait * Pow(backoff, j)
    decreases maxAttempts - k
  {
    if k < maxAttempts && outcomes[k].Listed? && k != maxAttempts - 1 {
      BackoffRunShape(k + 1, maxAttempts, wait * backoff, backoff, outcomes);
      var t := BackoffRun(k, maxAttempts, wait, backoff, outcomes);
      var rest := BackoffRun(k + 1, maxAttempts, wait * backoff, backoff, outcomes);
      forall j | 0 <= j < |t.sleeps|
        ensures t.sleeps[j] == wait * Pow(backoff, j)
      {
        if j > 0 {
          assert t.sleeps[j] == rest.sleeps[j - 1] == wait * backoff * Pow(backoff, j - 1);
        }
      }
    }
  }

  /** The whole wrapper calls the function at most `max_attempts` times,
      never when `max_attempts` is not positive (and then returns None),
      and the k-th sleep waits `delay * backoff^k` before the jitter. */
  lemma BackoffBounds<T>(maxAttempts: int, delay: int, backoff: int, outcomes: seq<Attempted<T>>)
    requires maxAttempts <= |outcomes|
    ensures var t := BackoffRun(0, maxAttempts, delay, backoff, outcomes);
            (maxAttempts <= 0 ==> t == BackoffTrace(Ok(None), 0, [])) &&
            (maxAttempts > 0 ==> 1 <= t.calls <= maxAttempts && |t.sleeps| == t.calls - 1) &&
            (forall k :: 0 <= k < |t.sleeps| ==> t.sleeps[k] == delay * Pow(backoff, k))
  {
    BackoffRunShape(0, maxAttempts, delay, backoff, outcomes);
  }

  /** When every call raises a listed exception, the wrapper makes exactly
      `max_attempts` calls and re-raises the last error instead of sleeping
      again. */
  lemma {:induction false} ExhaustedReraisesLast<T>(k: nat, maxAttempts: int, wait: int, backoff: int,
                                                    outcomes: seq<Attempted<T>>)
    requires maxAttempts <= |outcomes| && k < maxAttempts
    requires forall j :: k <= j < maxAttempts ==> outcomes[j].Listed?
    ensures var t := BackoffRun(k, maxAttempts, wait, backoff, outcomes);
            t.result == Err(outcomes[maxAttempts - 1].e) && t.calls == maxAttempts - k &&
            |t.sleeps| == maxAttempts - k - 1
    decreases maxAttempts - k
  {
    if k < maxAttempts - 1 {
      ExhaustedReraisesLast(k + 1, maxAttempts, wait * backoff, backoff, outcomes);
    }
  }

  /** An exception that is not listed, or a success, ends the run at once:
      the first call's outcome is the result, with no sleep. */
  lemma FirstOutcomeDecides<T>(maxAttempts: int, delay: int, backoff: int, outcomes: seq<Attempted<T>>)
    requires 0 < maxAttempts <= |outcomes| && !outcomes[0].Listed?
    ensures var t := BackoffRun(0, maxAttempts, delay, backoff, outcomes);
            t.calls == 1 && t.sleeps == [] &&
            t.result == if outcomes[0].Value? then Ok(Some(outcomes[0].v)) else Err(outcomes[0].e)
  {
  }

  /** With the package defaults a function that always raises a listed
      exception is called five times, with base sleeps of 2, 4, 8 and 16
      seconds. */
  lemma DefaultSchedule<T>(outcomes: seq<Attempted<T>>)
    requires |outcomes| >= MaxAttempts
    requires forall j :: 0 <= j < MaxAttempts ==> outcomes[j].Listed?
    ensures var t := BackoffRun(0, MaxAttempts, Delay, Backoff, outcomes);
            t.calls == 5 && t.sleeps == [2, 4, 8, 16] && t.result == Err(outcomes[4].e)
  {
    ExhaustedReraisesLast(0, MaxAttempts, Delay, Backoff, outcomes);
    BackoffRunShape(0, MaxAttempts, Delay, Backoff, outcomes);
    var t := BackoffRun(0, MaxAttempts, Delay, Backoff, outcomes);
    assert Pow(2, 1) == 2 && Pow(2, 2) == 4 && Pow(2, 3) == 8;
    assert t.sleeps[0] == 2 && t.sleeps[1] == 4 && t.sleeps[2] == 8 && t.sleeps[3] == 16;
  }
}
