/** Bounded retries with backoff around one provider operation. */
module Retries {
  import opened Prelude

  datatype ErrorKind = CancelledByCaller | CapabilityMissing | ProviderMissing | OtherError

  datatype AiError = AiError(kind: ErrorKind, status: Option<int>, retryable: bool, retryAfter: Option<real>)

  /** `AICancelledError`, as raised when the surrounding task is cancelled during a call. */
  const CANCELLATION := AiError(CancelledByCaller, None, false, None)

  /** What one call of the operation does: `Foreign` is an exception outside the AI taxonomy. */
  datatype Reply<T> = Answer(value: T) | TaskCancelled | Fails(error: AiError) | Foreign

  /** What the environment holds in store for one operation: the reply to each call, the jitter drawn after it, and
      whether the task is cancelled while it waits for the next. */
  datatype Course<!T> = Course(replies: nat -> Reply<T>, draws: nat -> real, cuts: nat -> bool)
  {
    ghost predicate Valid() {
      forall i :: 0.0 <= draws(i) < 1.0
    }
  }

  /** How a supervised operation ends. A cancellation during a call is raised as such; one during a wait propagates
      bare, like any exception outside the taxonomy. */
  datatype Ending<T> = Returned(value: T) | Raised(error: AiError) | Propagated

  datatype Policy = Policy(maxRetries: int, initialDelay: real, maxDelay: real, multiplier: real, jitter: bool)

  /** Seconds to wait after the failure of the given attempt, for a random draw in [0, 1). */
  function ComputeDelay(p: Policy, attempt: nat, retryAfter: Option<real>, draw: real): real {
    if retryAfter.Some? && retryAfter.value > 0.0 then MinReal(retryAfter.value, p.maxDelay)
    else
      var delay := MinReal(p.initialDelay * Power(p.multiplier, attempt), p.maxDelay);
      if p.jitter then delay * (0.5 + draw * 0.5) else delay
  }

  /** No wait exceeds the maximum, whatever the draw, the attempt and the server's hint. */
  lemma DelayIsCapped(p: Policy, attempt: nat, retryAfter: Option<real>, draw: real)
    requires p.maxDelay >= 0.0 && 0.0 <= draw < 1.0
    ensures ComputeDelay(p, attempt, retryAfter, draw) <= p.maxDelay
  {
    Damped(MinReal(p.initialDelay * Power(p.multiplier, attempt), p.maxDelay), 0.5 + draw * 0.5, p.maxDelay);
  }

  lemma Damped(delay: real, factor: real, cap: real)
    requires delay <= cap && 0.0 <= cap && 0.0 <= factor <= 1.0
    ensures delay * factor <= cap
  {
    if delay >= 0.0 {
      assert delay * factor <= delay * 1.0;
    } else {
      assert delay * factor <= 0.0;
    }
  }

  /** Before jitter. */
  function Backoff(p: Policy, attempt: nat): real {
    MinReal(p.initialDelay * Power(p.multiplier, attempt), p.maxDelay)
  }

  lemma ScaleUp(d: real, m: real, x: real)
    requires d >= 0.0 && m >= 1.0 && x >= 0.0
    ensures d * x >= 0.0 && m * x >= x && d * (m * x) >= d * x
  {
    assert (m - 1.0) * x >= 0.0;
    assert d * ((m - 1.0) * x) >= 0.0;
    assert d * (m * x) == d * x + d * ((m - 1.0) * x);
  }

  lemma {:induction false} PowerNonNegative(base: real, exponent: nat)
    requires base >= 1.0
    ensures Power(base, exponent) >= 0.0
  {
    if exponent > 0 {
      PowerNonNegative(base, exponent - 1);
      ScaleUp(0.0, base, Power(base, exponent - 1));
    }
  }

  lemma BackoffGrows(p: Policy, attempt: nat)
    requires p.initialDelay >= 0.0 && p.maxDelay >= 0.0 && p.multiplier >= 1.0
    ensures 0.0 <= Backoff(p, attempt) <= Backoff(p, attempt + 1)
  {
    PowerNonNegative(p.multiplier, attempt);
    ScaleUp(p.initialDelay, p.multiplier, Power(p.multiplier, attempt));
  }

  /** Without a hint a wait lies between half the backoff and the backoff, which never shrinks from one attempt to the
      next. */
  lemma BackoffLaw(p: Policy, attempt: nat, draw: real)
    requires p.initialDelay >= 0.0 && p.maxDelay >= 0.0 && p.multiplier >= 1.0 && 0.0 <= draw < 1.0
    ensures var delay := ComputeDelay(p, attempt, None, draw);
            0.5 * Backoff(p, attempt) <= delay <= Backoff(p, attempt) <= Backoff(p, attempt + 1)
  {
    BackoffGrows(p, attempt);
    Jittered(Backoff(p, attempt), 0.5 + draw * 0.5);
    DelayIsJittered(p, attempt, draw);
  }

  lemma DelayIsJittered(p: Policy, attempt: nat, draw: real)
    ensures ComputeDelay(p, attempt, None, draw) ==
              if p.jitter then Backoff(p, attempt) * (0.5 + draw * 0.5) else Backoff(p, attempt)
  {
  }

  lemma Jittered(delay: real, factor: real)
    requires delay >= 0.0 && 0.5 <= factor <= 1.0
    ensures 0.5 * delay <= delay * factor <= delay
  {
  }

  /** The reply asks for another call. */
  predicate RetriedReply<T>(p: Policy, attempt: nat, r: Reply<T>) {
    r.Fails? && r.error.retryable && attempt < p.maxRetries
  }

  /** The reply asks for another call, and nothing interrupts the wait for it. */
  predicate Continues<T>(p: Policy, c: Course<T>, attempt: nat) {
    RetriedReply(p, attempt, c.replies(attempt)) && !c.cuts(attempt)
  }

  /** How the operation ends if this attempt is its last. */
  function EndingAt<T>(p: Policy, c: Course<T>, attempt: nat): Ending<T> {
    match c.replies(attempt)
    case Answer(v) => Returned(v)
    case TaskCancelled => Raised(CANCELLATION)
    case Fails(e) => if RetriedReply(p, attempt, c.replies(attempt)) then Propagated else Raised(e)
    case Foreign => Propagated
  }

  /** The attempt that decides: the first that is not followed by another call. */
  function Decisive<T>(p: Policy, c: Course<T>, from: nat): (n: nat)
    ensures n >= from && !Continues(p, c, n)
    ensures forall i :: from <= i < n ==> Continues(p, c, i)
    ensures n <= Max(from, p.maxRetries)
    decreases p.maxRetries - from
  {
    if Continues(p, c, from) then Decisive(p, c, from + 1) else from
  }

  function Supervised<T>(p: Policy, c: Course<T>): Ending<T> {
    EndingAt(p, c, Decisive(p, c, 0))
  }

  /** An operation ends outside the taxonomy exactly if the deciding call raised a foreign exception, or the wait after
      a call worth repeating was cut short. */
  lemma PropagatesIff<T>(p: Policy, c: Course<T>)
    ensures var n := Decisive(p, c, 0);
            Supervised(p, c).Propagated? <==>
              c.replies(n).Foreign? || (RetriedReply(p, n, c.replies(n)) && c.cuts(n))
  {
  }

  /** The wait that follows a failed attempt. */
  function WaitAfter<T>(p: Policy, c: Course<T>, attempt: nat): real {
    var r := c.replies(attempt);
    if r.Fails? then ComputeDelay(p, attempt, r.error.retryAfter, c.draws(attempt)) else 0.0
  }

  /** The full waits after the first `n` attempts. */
  function Waits<T>(p: Policy, c: Course<T>, n: nat): real {
    if n == 0 then 0.0 else Waits(p, c, n - 1) + WaitAfter(p, c, n - 1)
  }

  lemma OneMoreWait(waits: nat, slept: real, delay: real, most: real)
    requires slept <= waits as real * most && delay <= most
    ensures slept + delay <= (waits + 1) as real * most
  {
  }

  lemma WaitIsCapped<T>(p: Policy, c: Course<T>, attempt: nat)
    requires p.maxDelay >= 0.0 && c.Valid()
    ensures WaitAfter(p, c, attempt) <= p.maxDelay
  {
    var r := c.replies(attempt);
    if r.Fails? {
      DelayIsCapped(p, attempt, r.error.retryAfter, c.draws(attempt));
    }
  }

  lemma {:induction false} WaitsAreBounded<T>(p: Policy, c: Course<T>, n: nat)
    requires p.maxDelay >= 0.0 && c.Valid()
    ensures Waits(p, c, n) <= n as real * p.maxDelay
  {
    if n > 0 {
      WaitsAreBounded(p, c, n - 1);
      WaitIsCapped(p, c, n - 1);
      OneMoreWait(n - 1, Waits(p, c, n - 1), WaitAfter(p, c, n - 1), p.maxDelay);
    }
  }

  /** Runs the operation until an attempt decides, counting calls and adding up the waits that ran to their end. */
  method Execute<T>(p: Policy, c: Course<T>) returns (ending: Ending<T>, calls: nat, slept: real)
    ensures calls == Decisive(p, c, 0) + 1
    ensures ending == Supervised(p, c)
    ensures calls <= 1 + Max(0, p.maxRetries)
    ensures slept == Waits(p, c, calls - 1)
  {
    var attempt: nat := 0;
    slept := 0.0;
    while true
      invariant Decisive(p, c, 0) == Decisive(p, c, attempt)
      invariant attempt <= Max(0, p.maxRetries)
      invariant slept == Waits(p, c, attempt)
      decreases p.maxRetries - attempt
    {
      var reply := c.replies(attempt);
      calls := attempt + 1;
      match reply
      case Answer(v) =>
        return Returned(v), calls, slept;
      case TaskCancelled =>
        return Raised(CANCELLATION), calls, slept;
      case Foreign =>
        return Propagated, calls, slept;
      case Fails(e) =>
        if !e.retryable || attempt >= p.maxRetries {
          return Raised(e), calls, slept;
        }
        var delay := ComputeDelay(p, attempt, e.retryAfter, c.draws(attempt));
        if c.cuts(attempt) {
          return Propagated, calls, slept;
        }
        attempt := attempt + 1;
        slept := slept + delay;
    }
  }
}
