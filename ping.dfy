/**
 * communication/ping.go: retrying a ping until it succeeds or a timeout has passed.
 *
 * The ping is a sequence of results, `ping(k)` being the result of the (k+1)-th call. The clock is
 * `elapsed(k)`: the time since `start` when the loop condition is checked after `k` sleeps. A sleep
 * lasts at least its interval, and at least one nanosecond passes per round, which is what makes the
 * loop end. Times are nanosecond counts.
 */
module Communication {
  import opened Wrappers
  import opened GoErrors

  const DefaultRetryInterval := 250_000_000
  const DefaultRetryTimeout := 10_000_000_000

  function Max(a: int, b: int): int
  {
    if a >= b then a else b
  }

  /** How the clock may behave: it starts at or after `start`, and each sleep advances it by its length at least. */
  ghost predicate ClockAdvances(elapsed: nat -> int, retryInterval: int)
  {
    && elapsed(0) >= 0
    && forall k: nat :: elapsed(k + 1) >= elapsed(k) + Max(retryInterval, 1)
  }

  /** The outcome of a run that made `pings` calls: every call but the last failed in time, and the last one ended it. */
  ghost predicate StoppedAt(ping: nat -> Option<Error>, elapsed: nat -> int, timeout: int, pings: nat)
  {
    && pings >= 1
    && (forall j: nat :: j < pings - 1 ==> ping(j).Some? && elapsed(j) < timeout)
    && (ping(pings - 1).None? || elapsed(pings - 1) >= timeout)
  }

  /**
   * WaitForPing. Besides the error, returns the number of pings made and the sleeps in between.
   */
  method WaitForPing(ping: nat -> Option<Error>, elapsed: nat -> int, timeout: int, retryInterval: int)
    returns (err: Option<Error>, pings: nat, sleeps: seq<int>)
    requires ClockAdvances(elapsed, retryInterval)
    ensures StoppedAt(ping, elapsed, timeout, pings)
    ensures err == ping(pings - 1)
    ensures |sleeps| == pings - 1 && forall i :: 0 <= i < |sleeps| ==> sleeps[i] == retryInterval
  {
    err := ping(0);
    pings := 1;
    sleeps := [];
    // start := time.Now(): elapsed(k) is measured from here.

    while elapsed(pings - 1) < timeout && err.Some?
      invariant pings >= 1 && err == ping(pings - 1)
      invariant forall j: nat :: j < pings - 1 ==> ping(j).Some? && elapsed(j) < timeout
      invariant |sleeps| == pings - 1 && forall i :: 0 <= i < |sleeps| ==> sleeps[i] == retryInterval
      decreases timeout - elapsed(pings - 1)
    {
      sleeps := sleeps + [retryInterval];
      assert elapsed(pings) >= elapsed(pings - 1) + 1;
      err := ping(pings);
      pings := pings + 1;
    }
  }

  /** The run is determined: a ping count that satisfies StoppedAt is the only one. */
  lemma StopIsUnique(ping: nat -> Option<Error>, elapsed: nat -> int, timeout: int, p: nat, q: nat)
    requires StoppedAt(ping, elapsed, timeout, p) && StoppedAt(ping, elapsed, timeout, q)
    ensures p == q
  {
    if p < q {
      assert false;
    } else if q < p {
      assert false;
    }
  }

  /** After `k` sleeps at least `k` times the (positive) interval has passed. */
  lemma {:induction false} ElapsedAtLeast(elapsed: nat -> int, retryInterval: int, k: nat)
    requires ClockAdvances(elapsed, retryInterval)
    ensures elapsed(k) >= k * Max(retryInterval, 1)
  {
    if k > 0 {
      ElapsedAtLeast(elapsed, retryInterval, k - 1);
      assert elapsed(k) >= elapsed(k - 1) + Max(retryInterval, 1);
    }
  }

  /** The number of pings is bounded by the timeout over the interval, plus the first ping and the last. */
  lemma PingsBounded(ping: nat -> Option<Error>, elapsed: nat -> int, timeout: int, retryInterval: int, pings: nat)
    requires ClockAdvances(elapsed, retryInterval) && StoppedAt(ping, elapsed, timeout, pings)
    requires pings >= 2
    ensures (pings - 2) * Max(retryInterval, 1) < timeout
  {
    ElapsedAtLeast(elapsed, retryInterval, pings - 2);
  }

  /** WaitForPingAuto: ten seconds of pings, every quarter of a second, so 41 pings at most. */
  method WaitForPingAuto(ping: nat -> Option<Error>, elapsed: nat -> int)
    returns (err: Option<Error>, pings: nat, sleeps: seq<int>)
    requires ClockAdvances(elapsed, DefaultRetryInterval)
    ensures StoppedAt(ping, elapsed, DefaultRetryTimeout, pings)
    ensures err == ping(pings - 1)
    ensures |sleeps| == pings - 1 && forall i :: 0 <= i < |sleeps| ==> sleeps[i] == DefaultRetryInterval
    ensures pings <= 41
  {
    err, pings, sleeps := WaitForPing(ping, elapsed, DefaultRetryTimeout, DefaultRetryInterval);
    if pings >= 2 {
      PingsBounded(ping, elapsed, DefaultRetryTimeout, DefaultRetryInterval, pings);
    }
  }

  /** A ping that succeeds at once is called once, with no sleep. */
  method ImmediateSuccess(elapsed: nat -> int) returns (err: Option<Error>, pings: nat)
    requires ClockAdvances(elapsed, DefaultRetryInterval)
    ensures err.None? && pings == 1
  {
    var sleeps;
    err, pings, sleeps := WaitForPingAuto(_ => None, elapsed);
  }

  /** A ping that always fails ends with its own error, once the timeout has passed. */
  method AlwaysFailing(e: Error, elapsed: nat -> int) returns (err: Option<Error>, pings: nat)
    requires ClockAdvances(elapsed, DefaultRetryInterval)
    ensures err == Some(e)
    ensures pings >= 1 && elapsed(pings - 1) >= DefaultRetryTimeout
  {
    var sleeps;
    err, pings, sleeps := WaitForPingAuto(_ => Some(e), elapsed);
  }

  /** Four failures then a success, on a clock that advances by exactly the interval: five pings, no error. */
  method SucceedsOnFifth(e: Error) returns (err: Option<Error>, pings: nat)
    ensures err.None? && pings == 5
  {
    var ping: nat -> Option<Error> := k => if k <= 3 then Some(e) else None;
    var elapsed: nat -> int := k => k * DefaultRetryInterval;
    var sleeps;
    err, pings, sleeps := WaitForPingAuto(ping, elapsed);
    assert ping(4).None?;
    if pings < 5 {
      assert false;
    } else if pings > 5 {
      assert false;
    }
  }
}
