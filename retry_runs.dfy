/**
 * Successive connect failures of one request. The engine calls
 * `fail_to_connect` once per failed attempt, with the clock readings `nows`;
 * these functions give the decisions taken and the attempt counter left
 * behind, and the lemmas state the policy's guarantees over whole runs.
 */
module RetryRuns {
  import opened Wrappers
  import opened Proxy

  /** Every clock reading is at or after the context's creation. */
  predicate AfterCreation(createdAt: nat, nows: seq<nat>)
  {
    forall i :: 0 <= i < |nows| ==> createdAt <= nows[i]
  }

  /** The clock does not run backwards. */
  predicate Monotone(nows: seq<nat>)
  {
    forall i, j :: 0 <= i <= j < |nows| ==> nows[i] <= nows[j]
  }

  /** The attempt counter after one failure decided as `d`. */
  function NextTries(d: Decision, tries: nat): nat
  {
    if d == Retry then tries + 1 else tries
  }

  /** The decisions taken, in order, for failures at the clock readings `nows`. */
  function Decisions(router: Option<Router>, tries: nat, createdAt: nat, nows: seq<nat>): (ds: seq<Decision>)
    requires AfterCreation(createdAt, nows)
    ensures |ds| == |nows|
    ensures |nows| > 0 ==> ds[0] == Decide(router, tries, createdAt, nows[0])
    decreases |nows|
  {
    if nows == [] then []
    else
      var d := Decide(router, tries, createdAt, nows[0]);
      [d] + Decisions(router, NextTries(d, tries), createdAt, nows[1..])
  }

  /** The attempt counter after failures at the clock readings `nows`. */
  function TriesAfter(router: Option<Router>, tries: nat, createdAt: nat, nows: seq<nat>): (t: nat)
    requires AfterCreation(createdAt, nows)
    ensures tries <= t <= tries + |nows|
    decreases |nows|
  {
    if nows == [] then tries
    else TriesAfter(router, NextTries(Decide(router, tries, createdAt, nows[0]), tries), createdAt, nows[1..])
  }

  /** The number of retryable decisions in `ds`. */
  function CountRetries(ds: seq<Decision>): (n: nat)
    ensures n <= |ds|
    ensures n == 0 <==> forall i :: 0 <= i < |ds| ==> ds[i] != Retry
  {
    if ds == [] then 0
    else (if ds[0] == Retry then 1 else 0) + CountRetries(ds[1..])
  }

  /** The counter grows by exactly one per retryable decision and never otherwise. */
  lemma {:induction false} TriesCountRetries(router: Option<Router>, tries: nat, createdAt: nat, nows: seq<nat>)
    requires AfterCreation(createdAt, nows)
    ensures TriesAfter(router, tries, createdAt, nows) == tries + CountRetries(Decisions(router, tries, createdAt, nows))
    decreases |nows|
  {
    if nows != [] {
      var d := Decide(router, tries, createdAt, nows[0]);
      var ds := Decisions(router, tries, createdAt, nows);
      TriesCountRetries(router, NextTries(d, tries), createdAt, nows[1..]);
      assert ds[1..] == Decisions(router, NextTries(d, tries), createdAt, nows[1..]);
    }
  }

  /**
   * With a retry count `n` configured and the counter within it, no run of
   * failures takes the counter past `n`: at most `n - tries` of them retry.
   */
  lemma {:induction false} RetriesBounded(router: Option<Router>, tries: nat, createdAt: nat, nows: seq<nat>)
    requires HasRetryPolicy(router) && tries <= RetryLimit(router)
    requires AfterCreation(createdAt, nows)
    ensures CountRetries(Decisions(router, tries, createdAt, nows)) <= RetryLimit(router) - tries
    ensures TriesAfter(router, tries, createdAt, nows) <= RetryLimit(router)
    decreases |nows|
  {
    if nows != [] {
      var d := Decide(router, tries, createdAt, nows[0]);
      var ds := Decisions(router, tries, createdAt, nows);
      RetriesBounded(router, NextTries(d, tries), createdAt, nows[1..]);
      assert ds[1..] == Decisions(router, NextTries(d, tries), createdAt, nows[1..]);
    }
  }

  /**
   * Without a route or a retry count, no failure is ever retried and the
   * counter never moves, whatever timeout is configured.
   */
  lemma {:induction false} NoPolicyNeverRetries(router: Option<Router>, tries: nat, createdAt: nat, nows: seq<nat>)
    requires !HasRetryPolicy(router)
    requires AfterCreation(createdAt, nows)
    ensures forall i :: 0 <= i < |nows| ==> Decisions(router, tries, createdAt, nows)[i] == NoRetryPolicy
    ensures TriesAfter(router, tries, createdAt, nows) == tries
    decreases |nows|
  {
    if nows != [] {
      var ds := Decisions(router, tries, createdAt, nows);
      NoPolicyNeverRetries(router, tries, createdAt, nows[1..]);
      assert ds[1..] == Decisions(router, tries, createdAt, nows[1..]);
      forall i | 1 <= i < |nows| ensures ds[i] == NoRetryPolicy {
        assert ds[i] == ds[1..][i - 1];
      }
    }
  }

  /**
   * With a retry count `n` and no time budget, the first `n - tries` failures
   * retry and every later one is terminal: `n` retries, `n + 1` attempts in all.
   */
  lemma {:induction false} ExactRetries(router: Option<Router>, tries: nat, createdAt: nat, nows: seq<nat>)
    requires HasRetryPolicy(router) && router.value.lb.retryTimeout.None?
    requires tries <= RetryLimit(router)
    requires AfterCreation(createdAt, nows)
    ensures forall i :: 0 <= i < |nows| ==>
      Decisions(router, tries, createdAt, nows)[i] ==
        (if i < RetryLimit(router) - tries then Retry else ExhaustedAttempts)
    ensures TriesAfter(router, tries, createdAt, nows) ==
      if |nows| < RetryLimit(router) - tries then tries + |nows| else RetryLimit(router)
    decreases |nows|
  {
    if nows != [] {
      var n := RetryLimit(router);
      var d := Decide(router, tries, createdAt, nows[0]);
      var ds := Decisions(router, tries, createdAt, nows);
      ExactRetries(router, NextTries(d, tries), createdAt, nows[1..]);
      assert ds[1..] == Decisions(router, NextTries(d, tries), createdAt, nows[1..]);
      forall i | 1 <= i < |nows|
        ensures ds[i] == (if i < n - tries then Retry else ExhaustedAttempts)
      {
        assert ds[i] == ds[1..][i - 1];
      }
    }
  }

  /** Once the count is exhausted, every later failure is terminal for the same reason. */
  lemma {:induction false} AttemptsExhaustionIsFinal(router: Option<Router>, tries: nat, createdAt: nat, nows: seq<nat>, k: nat)
    requires AfterCreation(createdAt, nows)
    requires k < |nows| && Decisions(router, tries, createdAt, nows)[k] == ExhaustedAttempts
    ensures forall j :: k <= j < |nows| ==> Decisions(router, tries, createdAt, nows)[j] == ExhaustedAttempts
    decreases |nows|
  {
    var ds := Decisions(router, tries, createdAt, nows);
    var d := ds[0];
    assert ds[1..] == Decisions(router, NextTries(d, tries), createdAt, nows[1..]);
    if k > 0 {
      assert ds[k] == ds[1..][k - 1];
      AttemptsExhaustionIsFinal(router, NextTries(d, tries), createdAt, nows[1..], k - 1);
      forall j | k <= j < |nows| ensures ds[j] == ExhaustedAttempts {
        assert ds[j] == ds[1..][j - 1];
      }
    } else if |nows| > 1 {
      // the counter is unchanged, so the count check fails again at the next failure
      assert ds[1..][0] == ExhaustedAttempts;
      AttemptsExhaustionIsFinal(router, tries, createdAt, nows[1..], 0);
      forall j | 1 <= j < |nows| ensures ds[j] == ExhaustedAttempts {
        assert ds[j] == ds[1..][j - 1];
      }
    }
  }

  /**
   * Once the time budget has run out, every later failure on a clock that does
   * not run backwards is terminal for the same reason: the budget is measured
   * from the context's creation, not from the last attempt.
   */
  lemma {:induction false} TimeExhaustionIsFinal(router: Option<Router>, tries: nat, createdAt: nat, nows: seq<nat>, k: nat)
    requires AfterCreation(createdAt, nows) && Monotone(nows)
    requires k < |nows| && Decisions(router, tries, createdAt, nows)[k] == ExhaustedTime
    ensures forall j :: k <= j < |nows| ==> Decisions(router, tries, createdAt, nows)[j] == ExhaustedTime
    decreases |nows|
  {
    var ds := Decisions(router, tries, createdAt, nows);
    var d := ds[0];
    assert ds[1..] == Decisions(router, NextTries(d, tries), createdAt, nows[1..]);
    assert Monotone(nows[1..]) by {
      forall i, j | 0 <= i <= j < |nows[1..]| ensures nows[1..][i] <= nows[1..][j] {
        assert nows[1..][i] == nows[i + 1] && nows[1..][j] == nows[j + 1];
      }
    }
    if k > 0 {
      assert ds[k] == ds[1..][k - 1];
      TimeExhaustionIsFinal(router, NextTries(d, tries), createdAt, nows[1..], k - 1);
      forall j | k <= j < |nows| ensures ds[j] == ExhaustedTime {
        assert ds[j] == ds[1..][j - 1];
      }
    } else if |nows| > 1 {
      // the counter is unchanged and the clock has only moved on
      assert nows[0] <= nows[1];
      assert ds[1..][0] == ExhaustedTime;
      TimeExhaustionIsFinal(router, tries, createdAt, nows[1..], 0);
      forall j | 1 <= j < |nows| ensures ds[j] == ExhaustedTime {
        assert ds[j] == ds[1..][j - 1];
      }
    }
  }
}
