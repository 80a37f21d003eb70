/**
 * The retry policy `withRetry` (src/utils.ts): call an operation, return its
 * first success, and after a failure either give up at once (cancellation,
 * or the budget is spent) or wait `delay` milliseconds and try again with one
 * retry fewer.
 *
 * The operation is given by the outcomes of its successive calls: `op(k)` is
 * what the (k+1)-th call yields. The cancellation signal is a boolean that
 * holds for the whole call. Time is not modelled: each wait is recorded, with
 * its length, in the `sleeps` log.
 */
module Retry {
  import opened Wrappers
  import opened Errors

  /** How a retried call ended: its result, how often the operation ran, and the waits in between. */
  datatype Run<T> = Run(result: Result<T, Error>, attempts: nat, sleeps: seq<int>)

  /** The number of further attempts a budget allows; a negative budget allows none. */
  function Budget(retries: int): nat {
    if retries > 0 then retries else 0
  }

  /** A failure the policy may retry: not a cancellation, with the signal not aborted. */
  predicate Retryable<T>(r: Result<T, Error>, aborted: bool) {
    r.Failure? && !r.error.AbortError? && !aborted
  }

  /** The same operation, from its second call on. */
  function Later<T>(op: nat -> Result<T, Error>): nat -> Result<T, Error> {
    (k: nat) => op(k + 1)
  }

  /**
   * The policy. The result is that of the last call; every earlier call was
   * a retryable failure; the policy stops before the budget is spent only at a
   * success or a failure it must not retry; between two calls it waits
   * exactly `delay` once.
   */
  function WithRetry<T>(op: nat -> Result<T, Error>, retries: int, delay: int, aborted: bool): (r: Run<T>)
    ensures 1 <= r.attempts <= Budget(retries) + 1
    ensures r.result == op(r.attempts - 1)
    ensures forall j :: 0 <= j < r.attempts - 1 ==> Retryable(op(j), aborted)
    ensures r.attempts <= Budget(retries) ==> !Retryable(r.result, aborted)
    ensures |r.sleeps| == r.attempts - 1
    ensures forall s :: s in r.sleeps ==> s == delay
    decreases Budget(retries)
  {
    match op(0)
    case Success(_) => Run(op(0), 1, [])
    case Failure(error) =>
      if error.AbortError? || aborted then Run(op(0), 1, [])
      else if retries <= 0 then Run(op(0), 1, [])
      else
        var rest := WithRetry(Later(op), retries - 1, delay, aborted);
        assert forall j :: 1 <= j < rest.attempts ==> Retryable(op(j), aborted) by {
          forall j | 1 <= j < rest.attempts ensures Retryable(op(j), aborted) {
            assert op(j) == Later(op)(j - 1);
          }
        }
        Run(rest.result, rest.attempts + 1, [delay] + rest.sleeps)
  }

  /** A first call that succeeds is returned at once: one attempt, no wait. */
  lemma FirstSuccessReturned<T>(op: nat -> Result<T, Error>, retries: int, delay: int, aborted: bool)
    requires op(0).Success?
    ensures WithRetry(op, retries, delay, aborted) == Run(op(0), 1, [])
  {
  }

  /**
   * A cancellation, or any failure once the signal is aborted, is rethrown
   * unchanged after the one call, whatever the budget: the cancellation test
   * comes before the budget test.
   */
  lemma CancellationNotRetried<T>(op: nat -> Result<T, Error>, retries: int, delay: int, aborted: bool)
    requires op(0).Failure? && (op(0).error.AbortError? || aborted)
    ensures WithRetry(op, retries, delay, aborted) == Run(op(0), 1, [])
  {
  }

  /** With no budget left, the one call's failure is rethrown; a negative budget acts as zero. */
  lemma NoBudgetOneAttempt<T>(op: nat -> Result<T, Error>, retries: int, delay: int, aborted: bool)
    requires retries <= 0
    ensures WithRetry(op, retries, delay, aborted) == Run(op(0), 1, [])
    ensures WithRetry(op, retries, delay, aborted) == WithRetry(op, 0, delay, aborted)
  {
  }

  /**
   * When every call fails retryably, the operation runs `retries + 1` times,
   * with a wait of `delay` between each two calls, and the last failure is
   * the one propagated.
   */
  lemma {:induction false} PersistentFailureExhaustsBudget<T>(op: nat -> Result<T, Error>, retries: nat, delay: int, aborted: bool)
    requires forall k :: Retryable(op(k), aborted)
    ensures WithRetry(op, retries, delay, aborted)
            == Run(op(retries), retries + 1, seq(retries, _ => delay))
  {
    if retries > 0 {
      PersistentFailureExhaustsBudget(Later(op), retries - 1, delay, aborted);
      assert [delay] + seq(retries - 1, _ => delay) == seq(retries, _ => delay);
    }
  }

  /** A failure followed by a success, with a budget of at least one, succeeds after one wait. */
  lemma FailOnceThenSucceed<T>(op: nat -> Result<T, Error>, retries: int, delay: int)
    requires retries >= 1
    requires Retryable(op(0), false) && op(1).Success?
    ensures WithRetry(op, retries, delay, false) == Run(op(1), 2, [delay])
  {
    assert op(1) == Later(op)(0);
  }

  /** The contract of the policy fixes its run: any two runs meeting it are the same. */
  lemma {:induction false} RunDetermined<T>(op: nat -> Result<T, Error>, retries: int, delay: int, aborted: bool, r: Run<T>)
    requires 1 <= r.attempts <= Budget(retries) + 1
    requires r.result == op(r.attempts - 1)
    requires forall j :: 0 <= j < r.attempts - 1 ==> Retryable(op(j), aborted)
    requires r.attempts <= Budget(retries) ==> !Retryable(r.result, aborted)
    requires |r.sleeps| == r.attempts - 1
    requires forall s :: s in r.sleeps ==> s == delay
    ensures r == WithRetry(op, retries, delay, aborted)
  {
    var w := WithRetry(op, retries, delay, aborted);
    assert r.attempts == w.attempts;
    assert r.sleeps == w.sleeps by {
      forall i | 0 <= i < |r.sleeps| ensures r.sleeps[i] == w.sleeps[i] {
        assert r.sleeps[i] in r.sleeps && w.sleeps[i] in w.sleeps;
      }
    }
  }

  /** An operation that always fails with the same error, three retries: four calls, three waits, that error. */
  lemma AlwaysFailingFourCalls()
    ensures WithRetry((k: nat) => Failure(OtherError("fail")), 3, 0, false)
            == Run<int>.Run(Failure(OtherError("fail")), 4, [0, 0, 0])
  {
    PersistentFailureExhaustsBudget<int>((k: nat) => Failure(OtherError("fail")), 3, 0, false);
    assert seq(3, _ => 0) == [0, 0, 0];
  }

  /** One failure, then 42, with two retries and a 1000 ms delay: 42 after one wait. */
  lemma RecoversAfterOneFailure()
    ensures WithRetry((k: nat) => if k == 0 then Failure(OtherError("Fail")) else Success(42), 2, 1000, false)
            == Run(Success(42), 2, [1000])
  {
    FailOnceThenSucceed((k: nat) => if k == 0 then Failure(OtherError("Fail")) else Success(42), 2, 1000);
  }
}
