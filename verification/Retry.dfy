/** The retry policy: what is attempted again, how often, and after how long. A context, an attempt
    and a random draw are functions from the number of attempts already made. */
module Retry {
  import opened Prelude
  import opened Routes

  datatype Class = Query | Mutation

  function ClassForPath(p: string): Class {
    if IsMutation(p) then Mutation else Query
  }

  datatype Category = Connection | Timeout | OtherCategory

  datatype Error =
    | DeadlineExceeded
    | Canceled
    | ApiError(category: Category, code: string)
    | OtherError(message: string)

  predicate Retryable(e: Error) {
    match e
    case DeadlineExceeded => true
    case Canceled => true
    case ApiError(category, code) =>
      category in {Connection, Timeout} || code in ["1011", "1015", "1017", "1018"]
    case OtherError(_) => false
  }

  // ---- the delay before the next attempt ----

  const TWO_63 := 0x8000_0000_0000_0000

  predicate Int64(x: int) {
    -TWO_63 <= x < TWO_63
  }

  /** Two's-complement reduction of a doubled Duration. */
  function Doubled(d: int): int
    requires Int64(d)
  {
    if 2 * d >= TWO_63 then 2 * d - 2 * TWO_63 else if 2 * d < -TWO_63 then 2 * d + 2 * TWO_63 else 2 * d
  }

  function Pow2(k: nat): (r: nat)
    ensures r > 0
  {
    if k == 0 then 1 else 2 * Pow2(k - 1)
  }

  lemma {:induction false} Pow2Grows(j: nat, k: nat)
    requires j <= k
    ensures Pow2(j) <= Pow2(k)
  {
    if j < k {
      Pow2Grows(j, k - 1);
    }
  }

  datatype Policy = Policy(maxAttempts: int, baseBackoff: int, maxBackoff: int, jitter: bool) {
    predicate Valid() {
      Int64(maxAttempts) && Int64(baseBackoff) && Int64(maxBackoff)
    }

    function Budget(kind: Class): nat {
      if kind.Mutation? || maxAttempts < 1 then 1 else maxAttempts
    }

    /** BaseBackoff doubled n - 1 times, over unbounded integers. */
    function Ideal(n: nat): nat
      requires baseBackoff > 0 && n >= 1
    {
      baseBackoff * Pow2(n - 1)
    }

    /** The delay without jitter: the ideal capped at MaxBackoff. With no cap set, a delay that does
        not fit a Duration collapses to that non-positive MaxBackoff. */
    function Backoff(n: int): int {
      if baseBackoff <= 0 || n < 1 then 0
      else if maxBackoff > 0 then (if Ideal(n) > maxBackoff then maxBackoff else Ideal(n))
      else if Ideal(n) < TWO_63 then Ideal(n)
      else maxBackoff
    }

    /** Whether `d` is a delay after `n` attempts: jitter moves it within its upper half. */
    predicate MayWait(n: int, d: int) {
      if jitter && Backoff(n) >= 2 then Backoff(n) / 2 <= d <= Backoff(n) else d == Backoff(n)
    }
  }

  lemma IdealGrows(p: Policy, j: nat, k: nat)
    requires p.baseBackoff > 0 && 1 <= j <= k
    ensures p.Ideal(j) <= p.Ideal(k)
  {
    Pow2Grows(j - 1, k - 1);
    assert p.baseBackoff * (Pow2(k - 1) - Pow2(j - 1)) >= 0;
  }

  /** The overflowing loop computes the capped closed form, then jitter is applied. */
  method Delay(p: Policy, n: int, draw: nat) returns (d: int)
    requires p.Valid()
    ensures p.MayWait(n, d)
    ensures p.baseBackoff <= 0 || n < 1 ==> d == 0
    ensures p.baseBackoff > 0 && n >= 1 && p.maxBackoff > 0 ==>
              var ideal := p.baseBackoff * Pow2(n - 1);
              var capped := if ideal < p.maxBackoff then ideal else p.maxBackoff;
              capped / 2 <= d <= capped && (!p.jitter ==> d == capped)
  {
    if p.baseBackoff <= 0 || n < 1 {
      return 0;
    }
    d := p.baseBackoff;
    var i := 1;
    while i < n
      invariant 1 <= i <= n && 0 < d < TWO_63 && d == p.Ideal(i)
    {
      IdealGrows(p, i, n);
      if p.maxBackoff > 0 && d >= p.maxBackoff {
        break;
      }
      IdealGrows(p, i + 1, n);
      assert p.Ideal(i + 1) == 2 * p.Ideal(i);
      d := Doubled(d);
      if d <= 0 {
        d := p.maxBackoff;
        break;
      }
      i := i + 1;
    }
    if p.maxBackoff > 0 && d > p.maxBackoff {
      d := p.maxBackoff;
    }
    assert d == p.Backoff(n);
    if p.jitter && d > 0 {
      var half := d / 2;
      if half > 0 {
        d := half + draw % (half + 1);
      }
    }
  }

  /** Without a cap, any delay the loop returns is a wait exactly while BaseBackoff doubled n - 1
      times fits a Duration, and is that very wait when there is no jitter. */
  lemma UncappedDelayIff(p: Policy, n: nat, d: int)
    requires p.Valid() && p.baseBackoff > 0 && p.maxBackoff <= 0 && n >= 1 && p.MayWait(n, d)
    ensures d > 0 <==> p.Ideal(n) < TWO_63
    ensures !p.jitter ==> (d == p.Ideal(n) <==> p.Ideal(n) < TWO_63)
    ensures d > 0 ==> p.Ideal(n) / 2 <= d <= p.Ideal(n)
  {
    assert p.Ideal(n) > 0 by {
      assert p.baseBackoff * Pow2(n - 1) > 0;
    }
  }

  lemma {:induction false} Pow2Adds(j: nat, k: nat)
    ensures Pow2(j + k) == Pow2(j) * Pow2(k)
  {
    if j > 0 {
      Pow2Adds(j - 1, k);
    }
  }

  /** One nanosecond doubled 63 times: the documented delay is 292 years, and the policy does not
      wait at all. */
  lemma UncappedDelayMayCollapse(attempts: int)
    ensures var p := Policy(attempts, 1, 0, false);
            p.Ideal(64) == TWO_63 && p.Backoff(64) == 0 && forall d :: p.MayWait(64, d) ==> d == 0
  {
    assert Pow2(7) == 128 && Pow2(14) == 16384 by {
      Pow2Adds(7, 7);
    }
    Pow2Adds(14, 14);
    Pow2Adds(28, 28);
    Pow2Adds(56, 7);
  }

  /** With a cap delays never shrink and never exceed it. */
  lemma CappedDelaysGrow(p: Policy, j: nat, k: nat)
    requires p.baseBackoff > 0 && p.maxBackoff > 0 && 1 <= j <= k
    ensures 0 < p.Backoff(j) <= p.Backoff(k) <= p.maxBackoff
  {
    IdealGrows(p, j, k);
    assert p.baseBackoff * Pow2(j - 1) > 0;
  }

  // ---- the attempts ----

  /** What surrounds a call: the result of attempt k, the context before attempt k, the context
      during the sleep of `d` after k attempts, and the draw for that sleep. */
  datatype World = World(
    attempt: nat -> Option<Error>,
    context: nat -> Option<Error>,
    sleep: (nat, int) -> Option<Error>,
    draw: nat -> nat)

  /** Attempt k failed, and in a way that warrants another. */
  predicate FailedRetryably(w: World, k: nat) {
    w.attempt(k).Some? && Retryable(w.attempt(k).value)
  }

  /** Attempts are made while they fail retryably, the budget lasts and the context holds; the
      answer is that of the last attempt, or the context's error when that ended the call. For a
      mutation this is at most one attempt whatever the policy. */
  method Do(p: Policy, kind: Class, w: World) returns (attempts: nat, err: Option<Error>)
    requires p.Valid()
    ensures attempts <= p.Budget(kind) && (kind.Mutation? ==> attempts <= 1)
    ensures forall k :: 0 <= k < attempts - 1 ==> FailedRetryably(w, k)
    ensures forall k :: 0 <= k < attempts ==> w.context(k).None?
    ensures attempts == 0 ==> w.context(0).Some? && err == w.context(0)
    ensures attempts > 0 && (attempts == p.Budget(kind) || !FailedRetryably(w, attempts - 1)) ==>
              err == w.attempt(attempts - 1)
    ensures attempts > 0 && attempts < p.Budget(kind) && FailedRetryably(w, attempts - 1) ==>
              && err.Some?
              && (|| err == w.context(attempts)
                  || exists d :: p.MayWait(attempts, d) && err == w.sleep(attempts, d))
  {
    var max := p.maxAttempts;
    if kind.Mutation? {
      max := 1;
    }
    if max < 1 {
      max := 1;
    }
    attempts := 0;
    while true
      invariant attempts < max && max == p.Budget(kind)
      invariant forall k :: 0 <= k < attempts ==> FailedRetryably(w, k)
      invariant forall k :: 0 <= k < attempts ==> w.context(k).None?
      decreases max - attempts
    {
      if w.context(attempts).Some? {
        return attempts, w.context(attempts);
      }
      attempts := attempts + 1;
      err := w.attempt(attempts - 1);
      if err.None? {
        return;
      }
      if attempts >= max || kind.Mutation? || !Retryable(err.value) {
        return;
      }
      var d := Delay(p, attempts, w.draw(attempts));
      if w.sleep(attempts, d).Some? {
        return attempts, w.sleep(attempts, d);
      }
    }
  }

  /** Any spelling of a mutation's path is attempted at most once, at every configuration. */
  method DoRoute(p: Policy, path: string, w: World) returns (attempts: nat, err: Option<Error>)
    requires p.Valid()
    ensures NormalizePath(path) in MUTATIONS ==> attempts <= 1
    ensures attempts <= p.Budget(ClassForPath(path))
    ensures err.None? <==> attempts > 0 && w.attempt(attempts - 1).None?
    ensures forall k :: 0 <= k < attempts - 1 ==> FailedRetryably(w, k)
  {
    MutationIffNormalFormIs(path);
    attempts, err := Do(p, ClassForPath(path), w);
  }
}
