/** Token buckets. Token counts are exact reals; an instant is the number of nanoseconds since the
    zero time, which is itself instant 0, and clock readings may be anything. */
module RateLimit {
  const SECOND := 1_000_000_000
  const MILLISECOND := 1_000_000

  datatype Limit = Limit(tokensPerSecond: real, burst: int) {
    predicate Enabled() {
      tokensPerSecond > 0.0 && burst > 0
    }

    function Normalized(): Limit {
      if tokensPerSecond > 0.0 && burst <= 0 then this.(burst := 1) else this
    }
  }

  /** Tokens that accrue at `rate` per second in `ns` nanoseconds. */
  function Accrued(rate: real, ns: int): real {
    rate * (ns as real / 1_000_000_000.0)
  }

  lemma AccruedAdds(rate: real, a: int, b: int)
    ensures Accrued(rate, a + b) == Accrued(rate, a) + Accrued(rate, b)
  {
    var x, y := a as real / 1_000_000_000.0, b as real / 1_000_000_000.0;
    assert (a + b) as real / 1_000_000_000.0 == x + y;
    assert rate * (x + y) == rate * x + rate * y;
  }

  lemma AccruedGrows(rate: real, a: int, b: int)
    requires rate > 0.0 && a <= b
    ensures Accrued(rate, a) <= Accrued(rate, b)
  {
    var x, y := a as real / 1_000_000_000.0, b as real / 1_000_000_000.0;
    assert x <= y;
    assert rate * (y - x) >= 0.0;
  }

  datatype Bucket = Bucket(limit: Limit, tokens: real, last: nat) {

    /** Never in debt and never above the burst. */
    predicate Valid() {
      limit.Enabled() && 0.0 <= tokens <= limit.burst as real
    }

    /** Tokens accrued since the last refill, capped at the burst; a clock that has not advanced
        since then accrues nothing. */
    function Refilled(now: nat): Bucket {
      if last == 0 then this.(last := now)
      else if now <= last then this
      else
        var t := tokens + Accrued(limit.tokensPerSecond, now - last);
        this.(last := now, tokens := if t > limit.burst as real then limit.burst as real else t)
    }

    predicate Admits(now: nat) {
      Refilled(now).tokens >= 1.0
    }

    /** One pass of the wait loop at reading `now`. */
    function Tried(now: nat): Bucket {
      var b := Refilled(now);
      if b.tokens >= 1.0 then b.(tokens := b.tokens - 1.0) else b
    }
  }

  function NewBucket(limit: Limit, now: nat): Bucket {
    Bucket(limit, limit.burst as real, now)
  }

  // ---- what any sequence of readings admits ----

  function After(b: Bucket, readings: seq<nat>): Bucket {
    if readings == [] then b else After(b, readings[..|readings| - 1]).Tried(readings[|readings| - 1])
  }

  /** How many passes over `readings` are admitted. */
  function Admissions(b: Bucket, readings: seq<nat>): nat {
    if readings == [] then 0
    else
      var init, now := readings[..|readings| - 1], readings[|readings| - 1];
      Admissions(b, init) + if After(b, init).Admits(now) then 1 else 0
  }

  /** One pass pays for what it admits out of what accrued. */
  lemma TryBalances(b: Bucket, now: nat)
    requires b.Valid()
    ensures b.Tried(now).Valid() && b.Tried(now).limit == b.limit && b.last <= b.Tried(now).last
    ensures (if b.Admits(now) then 1.0 else 0.0) + b.Tried(now).tokens <=
            b.tokens + Accrued(b.limit.tokensPerSecond, b.Tried(now).last - b.last)
  {
    AccruedGrows(b.limit.tokensPerSecond, 0, b.Tried(now).last - b.last);
  }

  /** For every starting state and every sequence of readings, even one that jumps backwards: the
      bucket stays within 0 and Burst, and it admits at most Burst plus the rate times the advance
      of its clock. */
  lemma {:induction false} AdmissionsAreBounded(b: Bucket, readings: seq<nat>)
    requires b.Valid()
    ensures var b' := After(b, readings);
            && b'.Valid() && b'.limit == b.limit && b.last <= b'.last
            && Admissions(b, readings) as real + b'.tokens <=
               b.tokens + Accrued(b.limit.tokensPerSecond, b'.last - b.last)
            && Admissions(b, readings) as real <=
               b.limit.burst as real + Accrued(b.limit.tokensPerSecond, b'.last - b.last)
  {
    if readings != [] {
      var init, now := readings[..|readings| - 1], readings[|readings| - 1];
      AdmissionsAreBounded(b, init);
      var m := After(b, init);
      TryBalances(m, now);
      AccruedAdds(b.limit.tokensPerSecond, m.last - b.last, m.Tried(now).last - m.last);
    }
  }

  /** A new bucket holds its burst: from any creation time, the first Burst passes are admitted,
      whatever the readings. */
  lemma {:induction false} BurstIsAdmitted(limit: Limit, born: nat, readings: seq<nat>)
    requires limit.Enabled() && |readings| <= limit.burst
    ensures var b := NewBucket(limit, born);
            && Admissions(b, readings) == |readings|
            && After(b, readings).limit == limit
            && (limit.burst - |readings|) as real <= After(b, readings).tokens <= limit.burst as real
  {
    if readings != [] {
      var b, init, now := NewBucket(limit, born), readings[..|readings| - 1], readings[|readings| - 1];
      BurstIsAdmitted(limit, born, init);
      NeverLoses(After(b, init), now);
    }
  }

  /** Refilling takes nothing away and never goes above the burst. */
  lemma NeverLoses(b: Bucket, now: nat)
    requires b.limit.Enabled() && b.tokens <= b.limit.burst as real
    ensures b.tokens <= b.Refilled(now).tokens <= b.limit.burst as real && b.Refilled(now).limit == b.limit
  {
    if b.last < now {
      AccruedGrows(b.limit.tokensPerSecond, 0, now - b.last);
    }
  }

  /** And it fills up again: a second brings the rate, and a bucket left alone for long enough to
      accrue its burst is full. */
  lemma IdleBucketFills(b: Bucket, now: nat)
    requires b.Valid() && 0 < b.last <= now && Accrued(b.limit.tokensPerSecond, now - b.last) >= b.limit.burst as real
    ensures b.Refilled(now).tokens == b.limit.burst as real
    ensures Accrued(b.limit.tokensPerSecond, SECOND) == b.limit.tokensPerSecond
  {
    assert now == b.last ==> Accrued(b.limit.tokensPerSecond, now - b.last) == 0.0;
  }

  // ---- one waiter ----

  /** How long the loop sleeps when it finds `tokens` in the bucket. A quotient too large for a
      Duration converts to whatever the platform makes of it (`wild`). */
  function SleepFor(limit: Limit, tokens: real, wild: int): (ns: int)
    requires limit.tokensPerSecond > 0.0
    ensures ns >= MILLISECOND
  {
    var q := 1_000_000_000.0 * (1.0 - tokens) / limit.tokensPerSecond;
    var d := if q < 9223372036854775808.0 then q.Floor else wild;
    if d < MILLISECOND then MILLISECOND else d
  }

  /** No sleep overflows a Duration. */
  predicate Representable(limit: Limit) {
    limit.tokensPerSecond > 0.0 && 1_000_000_000.0 / limit.tokensPerSecond < 9223372036854775808.0
  }

  lemma AccruedScaled(rate: real, ns: int)
    ensures Accrued(rate, ns) == rate * (ns as real) / 1_000_000_000.0
  {
  }

  /** Sleeping the quotient out, or one millisecond if it rounds below that, leaves less than a
      nanosecond's worth of tokens missing. */
  lemma SleepLeavesLittle(limit: Limit, tokens: real, wild: int)
    requires Representable(limit) && 0.0 <= tokens < 1.0
    ensures var d := SleepFor(limit, tokens, wild);
            1.0 - (tokens + Accrued(limit.tokensPerSecond, d)) < limit.tokensPerSecond / 1_000_000_000.0
  {
    var rate := limit.tokensPerSecond;
    var q := 1_000_000_000.0 * (1.0 - tokens) / rate;
    QuotientFits(rate, tokens);
    var d := SleepFor(limit, tokens, wild);
    assert d as real > q - 1.0;
    AccruedScaled(rate, d);
    hide *;
    var paid := rate * (d as real);
    assert paid > 1_000_000_000.0 * (1.0 - tokens) - rate by {
      assert paid > rate * (q - 1.0);
      assert rate * (q - 1.0) == rate * q - rate;
      assert rate * q == 1_000_000_000.0 * (1.0 - tokens);
    }
    assert paid / 1_000_000_000.0 > 1.0 - tokens - rate / 1_000_000_000.0;
  }

  lemma QuotientFits(rate: real, tokens: real)
    requires rate > 0.0 && 1_000_000_000.0 / rate < 9223372036854775808.0 && 0.0 <= tokens <= 1.0
    ensures 1_000_000_000.0 * (1.0 - tokens) / rate < 9223372036854775808.0
  {
    var x := 1_000_000_000.0 / rate;
    assert x > 0.0;
    assert 1_000_000_000.0 * (1.0 - tokens) / rate == x * (1.0 - tokens);
    assert x * (1.0 - tokens) <= x;
  }

  /** Any sleep brings at least a millisecond's worth of tokens, which covers such a remainder. */
  lemma SleepBringsAMillisecond(limit: Limit, tokens: real, wild: int)
    requires limit.tokensPerSecond > 0.0
    ensures Accrued(limit.tokensPerSecond, SleepFor(limit, tokens, wild)) >= limit.tokensPerSecond / 1000.0
  {
    AccruedGrows(limit.tokensPerSecond, MILLISECOND, SleepFor(limit, tokens, wild));
    AccruedScaled(limit.tokensPerSecond, MILLISECOND);
  }

  /** How many millisecond sleeps would at most be needed. */
  function SleepsLeft(limit: Limit, tokens: real): nat
    requires limit.tokensPerSecond > 0.0
  {
    if tokens >= 1.0 then 0
    else
      var n := ((1.0 - tokens) * 1000.0 / limit.tokensPerSecond).Floor;
      if n < 0 then 0 else n + 1
  }

  lemma SleepMakesProgress(limit: Limit, tokens: real, tokens': real)
    requires limit.tokensPerSecond > 0.0 && tokens < 1.0 && tokens' >= tokens + limit.tokensPerSecond / 1000.0
    ensures SleepsLeft(limit, tokens') < SleepsLeft(limit, tokens)
  {
    var rate := limit.tokensPerSecond;
    var x, y := (1.0 - tokens) * 1000.0 / rate, (1.0 - tokens') * 1000.0 / rate;
    assert x > 0.0;
    assert x - y == (tokens' - tokens) * 1000.0 / rate;
    assert (tokens' - tokens) * 1000.0 >= rate;
    AtLeastOne((tokens' - tokens) * 1000.0, rate);
  }

  lemma AtLeastOne(a: real, rate: real)
    requires rate > 0.0 && a >= rate
    ensures a / rate >= 1.0
  {
    var q := a / rate;
    assert q * rate == a;
    assert q >= 1.0 || q * rate < 1.0 * rate;
  }

  /** What a sleep does for a lone waiter: it always makes progress; it leaves less than a
      nanosecond's worth missing; and when no more than that was missing, it ends the wait. */
  lemma SleepStep(b: Bucket, later: nat, wild: int)
    requires b.Valid() && b.tokens < 1.0 && b.last > 0 && later >= b.last + SleepFor(b.limit, b.tokens, wild)
    ensures var b' := b.Refilled(later);
            var nano := b.limit.tokensPerSecond / 1_000_000_000.0;
            && b'.Valid() && b'.last == later
            && SleepsLeft(b.limit, b'.tokens) < SleepsLeft(b.limit, b.tokens)
            && (Representable(b.limit) ==> b'.tokens >= 1.0 || 1.0 - b'.tokens < nano)
            && (1.0 - b.tokens < nano ==> b'.tokens >= 1.0)
  {
    var rate, ns := b.limit.tokensPerSecond, SleepFor(b.limit, b.tokens, wild);
    var uncapped := b.tokens + Accrued(rate, later - b.last);
    AccruedGrows(rate, ns, later - b.last);
    SleepBringsAMillisecond(b.limit, b.tokens, wild);
    SleepMakesProgress(b.limit, b.tokens, uncapped);
    if Representable(b.limit) {
      SleepLeavesLittle(b.limit, b.tokens, wild);
    }
    hide Accrued, SleepFor;
    assert b.Refilled(later).tokens >= 1.0 || b.Refilled(later).tokens == uncapped;
  }

  /** The clock readings of a lone waiter's first `n` passes: `start`, then each time the sleep the
      pass before asked for later, and `late(k)` more after sleep k. */
  function Readings(b: Bucket, start: nat, late: nat -> nat, wild: int, n: nat): (rs: seq<nat>)
    requires b.limit.tokensPerSecond > 0.0
    ensures |rs| == n
  {
    if n == 0 then []
    else
      var init := Readings(b, start, late, wild, n - 1);
      init + [if n == 1 then start else init[n - 2] + SleepFor(b.limit, After(b, init).tokens, wild) + late(n - 2)]
  }

  lemma PassOnce(b: Bucket, rs: seq<nat>, now: nat)
    ensures After(b, rs + [now]) == After(b, rs).Tried(now)
    ensures Admissions(b, rs + [now]) == Admissions(b, rs) + if After(b, rs).Admits(now) then 1 else 0
  {
    assert (rs + [now])[..|rs|] == rs;
  }

  lemma NextReading(b: Bucket, start: nat, late: nat -> nat, wild: int, n: nat)
    requires b.limit.tokensPerSecond > 0.0
    ensures var rs := Readings(b, start, late, wild, n + 1);
            Readings(b, start, late, wild, n + 2) ==
            rs + [rs[n] + SleepFor(b.limit, After(b, rs).tokens, wild) + late(n)]
  {
    hide After, SleepFor;
  }

  /** A lone waiter that found `b` has been turned away at the readings `passed`, and its pass at
      `now` has refilled the bucket to `value`. */
  predicate Midway(
    b: Bucket, start: nat, late: nat -> nat, wild: int, passed: seq<nat>, now: nat, value: Bucket)
    requires b.limit.tokensPerSecond > 0.0
  {
    && passed + [now] == Readings(b, start, late, wild, |passed| + 1)
    && value == After(b, passed).Refilled(now) && Admissions(b, passed) == 0
  }

  lemma WaitBegins(b: Bucket, start: nat, late: nat -> nat, wild: int)
    requires b.limit.tokensPerSecond > 0.0
    ensures Midway(b, start, late, wild, [], start, b.Refilled(start))
  {
    assert Readings(b, start, late, wild, 0) == [];
  }

  lemma RefillStays(b: Bucket, now: nat)
    requires b.Valid() && 0 < now
    ensures b.Refilled(now).Valid() && b.Refilled(now).limit == b.limit && b.tokens <= b.Refilled(now).tokens
    ensures b.Refilled(now).last == if b.last < now then now else b.last
    ensures b.Admits(now) <==> b.Refilled(now).tokens >= 1.0
  {
    if b.last < now {
      AccruedGrows(b.limit.tokensPerSecond, 0, now - b.last);
    }
  }

  lemma WaitEnds(b: Bucket, start: nat, late: nat -> nat, wild: int, passed: seq<nat>, now: nat, value: Bucket)
    requires b.limit.tokensPerSecond > 0.0 && Midway(b, start, late, wild, passed, now, value)
    ensures var rs := Readings(b, start, late, wild, |passed| + 1);
            if value.tokens >= 1.0
            then After(b, rs) == value.(tokens := value.tokens - 1.0) && Admissions(b, rs) == 1
            else After(b, rs) == value && Admissions(b, rs) == 0
  {
    PassOnce(b, passed, now);
  }

  lemma WaitGoesOn(b: Bucket, start: nat, late: nat -> nat, wild: int, passed: seq<nat>, now: nat, value: Bucket)
    requires b.limit.tokensPerSecond > 0.0 && Midway(b, start, late, wild, passed, now, value)
    requires value.tokens < 1.0
    ensures var next := now + SleepFor(b.limit, value.tokens, wild) + late(|passed|);
            Midway(b, start, late, wild, passed + [now], next, value.Refilled(next))
  {
    NextReading(b, start, late, wild, |passed|);
    WaitEnds(b, start, late, wild, passed, now, value);
    hide SleepFor, After, Admissions, Readings, Bucket.Refilled;
    assert (passed + [now])[|passed|] == now;
  }

  /** The mutable bucket. */
  class TokenBucket {
    const limit: Limit
    var tokens: real
    var last: nat

    ghost function Value(): Bucket
      reads this
    {
      Bucket(limit, tokens, last)
    }

    constructor (limit: Limit, now: nat)
      ensures Value() == NewBucket(limit, now)
    {
      this.limit, tokens, last := limit, limit.burst as real, now;
    }

    method Refill(now: nat)
      modifies this
      ensures Value() == old(Value()).Refilled(now)
    {
      if last == 0 {
        last := now;
        return;
      }
      var elapsed := now - last;
      if elapsed <= 0 {
        return;
      }
      last := now;
      tokens := tokens + Accrued(limit.tokensPerSecond, elapsed);
      if tokens > limit.burst as real {
        tokens := limit.burst as real;
      }
    }

    /** Take one token, sleeping while there is none; the caller gives up during sleep `patience`.
        A lone waiter passes over the bucket once more than it sleeps, and none of those passes but
        possibly the last is admitted. It ends even if its clock starts out behind the bucket's,
        which only adds sleeps: from a clock that has caught up, two are enough. */
    method Wait(start: nat, late: nat -> nat, wild: int, patience: nat) returns (ok: bool, sleeps: nat)
      requires Value().Valid() && 0 < start
      modifies this
      ensures Value().Valid() && sleeps <= patience && (!ok ==> sleeps == patience)
      ensures var b, rs := old(Value()), Readings(old(Value()), start, late, wild, sleeps + 1);
              Value() == After(b, rs) && Admissions(b, rs) == if ok then 1 else 0
      ensures old(Value()).Admits(start) ==> ok && sleeps == 0
      ensures Representable(limit) && old(last) <= start && patience >= 2 ==> ok && sleeps <= 2
    {
      hide SleepFor, SleepsLeft, After, Admissions, Readings, Representable, Midway, Bucket.Refilled, Bucket.Admits;
      var now: nat := start;
      ghost var b, prompt := Value(), last <= start && Representable(limit);
      ghost var passed: seq<nat> := [];
      assert b.Valid() && limit.tokensPerSecond > 0.0;
      RefillStays(b, start);
      WaitBegins(b, start, late, wild);
      Refill(now);
      sleeps := 0;
      while tokens < 1.0
        invariant Value().Valid() && 0 < now <= last && |passed| == sleeps <= patience
        invariant Midway(b, start, late, wild, passed, now, Value())
        invariant sleeps > 0 ==> !b.Admits(start)
        invariant sleeps == 0 ==> b.Admits(start) == (tokens >= 1.0)
        invariant prompt ==> last == now
        invariant prompt && sleeps == 1 ==>
                    tokens >= 1.0 || 1.0 - tokens < limit.tokensPerSecond / 1_000_000_000.0
        invariant prompt && sleeps >= 2 ==> sleeps == 2 && tokens >= 1.0
        decreases last - now, SleepsLeft(limit, tokens)
      {
        if sleeps == patience {
          WaitEnds(b, start, late, wild, passed, now, Value());
          return false, sleeps;
        }
        WaitGoesOn(b, start, late, wild, passed, now, Value());
        var ns := SleepFor(limit, tokens, wild);
        RefillStays(Value(), now + ns + late(sleeps));
        if last == now {
          SleepStep(Value(), now + ns + late(sleeps), wild);
        }
        passed := passed + [now];
        now := now + ns + late(sleeps);
        Refill(now);
        sleeps := sleeps + 1;
      }
      WaitEnds(b, start, late, wild, passed, now, Value());
      tokens := tokens - 1.0;
      ok := true;
    }
  }
}
