/** agents/engineering/summarizer.py, _llm_call: bounded retries with backoff. */
module LlmCall {
  /** How one attempt ends. `Fatal` is every exception the loop does not catch. */
  datatype Result = Reply(text: string) | Timeout | Transient | Fatal

  /** What the provider does on attempt i (from 1), and how long it takes. */
  datatype Attempt = Attempt(result: Result, seconds: real)

  predicate Retryable(r: Result) {
    r == Timeout || r == Transient
  }

  function Pow2(n: nat): nat {
    if n == 0 then 1 else 2 * Pow2(n - 1)
  }

  function Backoff(attempt: nat): nat {
    if Pow2(attempt) < 30 then Pow2(attempt) else 30
  }

  /** Backoff(1) + ... + Backoff(n). */
  function BackoffSum(n: nat): nat {
    if n == 0 then 0 else BackoffSum(n - 1) + Backoff(n)
  }

  /** Retries the settings allow; a negative setting allows none. */
  function Budget(maxRetries: int): nat {
    if maxRetries < 0 then 0 else maxRetries
  }

  /** `n` attempts that each take the whole timeout. */
  function Waits(n: nat, timeout: real): real {
    if n == 0 then 0.0 else Waits(n - 1, timeout) + timeout
  }

  /** The slowest a call can be. */
  function WorstCase(timeout: real, maxRetries: int): real {
    Waits(Budget(maxRetries) + 1, timeout) + BackoffSum(Budget(maxRetries)) as real
  }

  /** The sleeps after attempts 1..n: only transient errors sleep. */
  function Slept(oracle: nat -> Attempt, n: nat): nat {
    if n == 0 then 0
    else Slept(oracle, n - 1) + (if oracle(n).result == Transient then Backoff(n) else 0)
  }

  /** Attempt k is reached: every earlier one failed in a retryable way, within
      budget. */
  ghost predicate Reached(oracle: nat -> Attempt, maxRetries: int, k: nat) {
    1 <= k <= Budget(maxRetries) + 1 && forall i | 1 <= i < k :: Retryable(oracle(i).result)
  }

  /** Attempt k replies, within the budget, and every earlier one timed out or failed
      in a way that may pass. */
  ghost predicate RepliesAt(oracle: nat -> Attempt, maxRetries: int, k: nat) {
    && 1 <= k <= (if maxRetries < 0 then 0 else maxRetries) + 1 && oracle(k).result.Reply?
    && forall i | 1 <= i < k :: oracle(i).result.Timeout? || oracle(i).result.Transient?
  }

  /** The time of attempts 1..n alone. */
  function Tried(oracle: nat -> Attempt, n: nat): real {
    if n == 0 then 0.0 else Tried(oracle, n - 1) + oracle(n).seconds
  }

  /** The time of a call that ends with attempt n: its attempts and the sleeps between. */
  function Took(oracle: nat -> Attempt, n: nat): real {
    Tried(oracle, n) + (if n == 0 then 0 else Slept(oracle, n - 1)) as real
  }

  /** The attempt a call ends with. */
  ghost predicate EndsWith(oracle: nat -> Attempt, maxRetries: int, n: nat) {
    Reached(oracle, maxRetries, n) && (Retryable(oracle(n).result) ==> n == Budget(maxRetries) + 1)
  }

  ghost predicate Punctual(oracle: nat -> Attempt, timeout: real) {
    timeout >= 0.0 && forall i :: 0.0 <= oracle(i).seconds <= timeout
  }

  /** `seconds` pass within some call of the loop. */
  ghost predicate WithinCall(oracle: nat -> Attempt, timeout: real, maxRetries: int, seconds: real) {
    Punctual(oracle, timeout) && exists n: nat :: EndsWith(oracle, maxRetries, n) && seconds <= Took(oracle, n)
  }

  lemma {:induction false} SleepsAreBounded(oracle: nat -> Attempt, n: nat)
    ensures Slept(oracle, n) <= BackoffSum(n)
  {
    if n > 0 {
      SleepsAreBounded(oracle, n - 1);
    }
  }

  /** Timeouts alone cost no sleep, transient errors alone the whole backoff. */
  lemma {:induction false} SleepsForTransientOnly(oracle: nat -> Attempt, n: nat)
    ensures (forall i | 1 <= i <= n :: oracle(i).result.Timeout?) ==> Slept(oracle, n) == 0
    ensures (forall i | 1 <= i <= n :: oracle(i).result.Transient?) ==> Slept(oracle, n) == BackoffSum(n)
  {
    if n > 0 {
      SleepsForTransientOnly(oracle, n - 1);
    }
  }

  lemma {:induction false} TriesAreBounded(oracle: nat -> Attempt, timeout: real, n: nat)
    requires Punctual(oracle, timeout)
    ensures 0.0 <= Tried(oracle, n) <= Waits(n, timeout)
  {
    if n > 0 {
      TriesAreBounded(oracle, timeout, n - 1);
    }
  }

  /** No call takes longer than the worst case. */
  lemma CallIsBounded(oracle: nat -> Attempt, timeout: real, maxRetries: int, seconds: real)
    requires WithinCall(oracle, timeout, maxRetries, seconds)
    ensures seconds <= WorstCase(timeout, maxRetries)
  {
    var n: nat :| EndsWith(oracle, maxRetries, n) && seconds <= Took(oracle, n);
    TriesAreBounded(oracle, timeout, n);
    SleepsAreBounded(oracle, n - 1);
    BackoffMonotone(n - 1, Budget(maxRetries));
    WaitsMonotone(n, Budget(maxRetries) + 1, timeout);
  }

  lemma {:induction false} BackoffMonotone(m: nat, n: nat)
    requires m <= n
    ensures BackoffSum(m) <= BackoffSum(n)
    decreases n
  {
    if m < n {
      BackoffMonotone(m, n - 1);
    }
  }

  lemma {:induction false} PowerGrows(n: nat)
    ensures n >= 5 ==> Pow2(n) >= 32
  {
    if n > 5 {
      PowerGrows(n - 1);
    } else {
      assert Pow2(5) == 2 * Pow2(4) == 4 * Pow2(3) == 8 * Pow2(2) == 16 * Pow2(1) == 32;
    }
  }

  /** The total backoff in closed form. */
  lemma {:induction false} BackoffClosedForm(n: nat)
    ensures BackoffSum(n) == if n <= 4 then Pow2(n + 1) - 2 else 30 * (n - 3)
  {
    if n > 0 {
      BackoffClosedForm(n - 1);
      PowerGrows(n);
      assert Pow2(4) == 2 * Pow2(3) == 4 * Pow2(2) == 8 * Pow2(1) == 16;
    }
  }

  /** The attempt a call ends with, told by the kinds of errors alone. */
  lemma EndIsTold(oracle: nat -> Attempt, maxRetries: int, n: nat)
    requires EndsWith(oracle, maxRetries, n)
    ensures oracle(n).result.Reply? <==> exists k :: RepliesAt(oracle, maxRetries, k)
    ensures forall i | 1 <= i <= n && i <= maxRetries && (oracle(i).result.Timeout? || oracle(i).result.Transient?) :: i < n
    ensures forall i | 1 <= i < n :: oracle(i).result.Timeout? || oracle(i).result.Transient?
  {
    if oracle(n).result.Reply? {
      assert RepliesAt(oracle, maxRetries, n);
    }
  }

  /** The loop. It makes attempts until one replies, one fails for good, or the
      budget is spent; it returns exactly when some attempt within the budget replies
      before any error that is not retryable. */
  method Call(oracle: nat -> Attempt, timeout: real, maxRetries: int)
    returns (r: Result, attempts: nat, slept: nat, elapsed: real)
    requires Punctual(oracle, timeout)
    ensures EndsWith(oracle, maxRetries, attempts) && r == oracle(attempts).result
    ensures r.Reply? <==> exists k :: RepliesAt(oracle, maxRetries, k)
    ensures forall i | 1 <= i <= attempts && i <= maxRetries && (oracle(i).result.Timeout? || oracle(i).result.Transient?) ::
      i < attempts
    ensures forall i | 1 <= i < attempts :: oracle(i).result.Timeout? || oracle(i).result.Transient?
    ensures slept == Slept(oracle, attempts - 1) <= BackoffSum(attempts - 1) <= BackoffSum(Budget(maxRetries))
    ensures elapsed == Took(oracle, attempts) && 0.0 <= elapsed <= WorstCase(timeout, maxRetries)
    ensures WithinCall(oracle, timeout, maxRetries, elapsed)
  {
    attempts, slept, elapsed := 0, 0, 0.0;
    while true
      invariant attempts <= Budget(maxRetries)
      invariant forall i | 1 <= i <= attempts :: Retryable(oracle(i).result)
      invariant slept == Slept(oracle, attempts)
      invariant elapsed == Tried(oracle, attempts) + slept as real
      decreases Budget(maxRetries) + 1 - attempts
    {
      attempts := attempts + 1;
      elapsed := elapsed + oracle(attempts).seconds;
      r := oracle(attempts).result;
      if r == Timeout {
        if attempts > maxRetries { break; }
      } else if r == Transient {
        if attempts > maxRetries { break; }
        slept := slept + Backoff(attempts);
        elapsed := elapsed + Backoff(attempts) as real;
      } else {
        break;
      }
    }
    BackoffMonotone(attempts - 1, Budget(maxRetries));
    SleepsAreBounded(oracle, attempts - 1);
    TriesAreBounded(oracle, timeout, attempts);
    assert EndsWith(oracle, maxRetries, attempts);
    EndIsTold(oracle, maxRetries, attempts);
    CallIsBounded(oracle, timeout, maxRetries, elapsed);
  }

  lemma {:induction false} WaitsMonotone(a: nat, b: nat, t: real)
    requires a <= b && t >= 0.0
    ensures Waits(a, t) <= Waits(b, t)
    decreases b
  {
    if a < b {
      WaitsMonotone(a, b - 1, t);
    }
  }

  lemma {:induction false} WorstCaseFormula(timeout: real, maxRetries: int)
    ensures WorstCase(timeout, maxRetries)
         == (Budget(maxRetries) + 1) as real * timeout + BackoffSum(Budget(maxRetries)) as real
  {
    WaitsFormula(Budget(maxRetries) + 1, timeout);
  }

  lemma {:induction false} WaitsFormula(n: nat, t: real)
    ensures Waits(n, t) == n as real * t
  {
    if n > 0 {
      WaitsFormula(n - 1, t);
    }
  }

  /** At the default settings (60 s, 2 retries) the two calls of a commit pipeline
      take at most 372 seconds. */
  lemma DefaultsBound()
    ensures 2.0 * WorstCase(60.0, 2) == 372.0
  {
    BackoffClosedForm(2);
    WorstCaseFormula(60.0, 2);
    assert Pow2(3) == 2 * Pow2(2) == 4 * Pow2(1) == 8;
    assert Budget(2) == 2 && BackoffSum(2) == 6;
  }
}
