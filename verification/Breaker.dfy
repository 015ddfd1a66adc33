/** The circuit breaker. Instants are nanoseconds on the clock the breaker reads. */
module Breaker {

  datatype Mode = Closed | Open | HalfOpen

  const DEFAULT_THRESHOLD := 5
  const DEFAULT_COOLDOWN := 30_000_000_000

  datatype Value = Value(
    mode: Mode, threshold: int, cooldown: int, halfOpenProbes: int,
    failures: int, probes: int, openedAt: int)
  {
    /** The failure count has reached the threshold exactly while the breaker is not closed, and a
        half-open breaker has its one probe out. */
    predicate Valid() {
      && threshold > 0 && cooldown > 0 && halfOpenProbes == 1 && failures >= 0
      && (mode.Closed? <==> failures < threshold)
      && (mode.HalfOpen? ==> probes == 1)
    }

    predicate Admits(now: int) {
      mode.Closed? || (mode.Open? && now - openedAt >= cooldown)
    }

    function Allowed(now: int): Value {
      if mode.Open? && now - openedAt >= cooldown then this.(mode := HalfOpen, probes := 1) else this
    }

    function Succeeded(): Value {
      if mode.Open? then this else this.(mode := Closed, failures := 0, probes := 0)
    }

    function Failed(now: int): Value {
      match mode
      case HalfOpen => this.(mode := Open, openedAt := now, probes := 0, failures := failures + 1)
      case Closed =>
        if failures + 1 >= threshold then this.(mode := Open, openedAt := now, failures := failures + 1)
        else this.(failures := failures + 1)
      case Open => this
    }
  }

  function New(threshold: int, cooldown: int): Value {
    Value(Closed,
          if threshold <= 0 then DEFAULT_THRESHOLD else threshold,
          if cooldown <= 0 then DEFAULT_COOLDOWN else cooldown,
          1, 0, 0, 0)
  }

  // ---- runs: any callers, any outcomes, in any order ----

  datatype Event = Ask(now: int) | Good(now: int) | Bad(now: int)

  function Apply(b: Value, e: Event): Value {
    match e
    case Ask(now) => b.Allowed(now)
    case Good(_) => b.Succeeded()
    case Bad(now) => b.Failed(now)
  }

  function After(b: Value, es: seq<Event>): Value {
    if es == [] then b else Apply(After(b, es[..|es| - 1]), es[|es| - 1])
  }

  lemma ApplyKeepsValid(b: Value, e: Event)
    requires b.Valid()
    ensures Apply(b, e).Valid() && Apply(b, e).cooldown == b.cooldown && Apply(b, e).threshold == b.threshold
  {
  }

  lemma {:induction false} RunKeepsValid(b: Value, es: seq<Event>)
    requires b.Valid()
    ensures After(b, es).Valid() && After(b, es).cooldown == b.cooldown && After(b, es).threshold == b.threshold
  {
    if es != [] {
      RunKeepsValid(b, es[..|es| - 1]);
      ApplyKeepsValid(After(b, es[..|es| - 1]), es[|es| - 1]);
    }
  }

  // ---- when it opens ----

  /** Failures reported since the last success: what "consecutive failures" means for a trace. */
  function Streak(es: seq<Event>): nat {
    if es == [] then 0
    else match es[|es| - 1]
      case Ask(_) => Streak(es[..|es| - 1])
      case Good(_) => 0
      case Bad(_) => Streak(es[..|es| - 1]) + 1
  }

  /** No point of the trace ends a streak of `threshold` failures. */
  predicate NeverReaches(es: seq<Event>, threshold: int) {
    Streak(es) < threshold && (es == [] || NeverReaches(es[..|es| - 1], threshold))
  }

  predicate StaysClosed(b: Value, es: seq<Event>) {
    After(b, es).mode.Closed? && (es == [] || StaysClosed(b, es[..|es| - 1]))
  }

  /** From new, the breaker has stayed closed throughout a trace exactly when no point of the trace
      ends a streak of `threshold` failures, and it opens at the very report that completes one. */
  lemma {:induction false} OpensAtTheThreshold(threshold: int, cooldown: int, es: seq<Event>)
    ensures var b := New(threshold, cooldown);
            && (NeverReaches(es, b.threshold) <==> StaysClosed(b, es))
            && (NeverReaches(es, b.threshold) ==> After(b, es).failures == Streak(es))
            && (es != [] && NeverReaches(es[..|es| - 1], b.threshold) && Streak(es) >= b.threshold ==>
                && After(b, es).mode.Open? && es[|es| - 1].Bad?
                && After(b, es).openedAt == es[|es| - 1].now && Streak(es) == b.threshold)
  {
    if es != [] {
      OpensAtTheThreshold(threshold, cooldown, es[..|es| - 1]);
      RunKeepsValid(New(threshold, cooldown), es[..|es| - 1]);
    }
  }

  // ---- what it lets through while it is not closed ----

  /** The latest instant a run that starts at `t` has reached. */
  function Clock(t: int, es: seq<Event>): int {
    if es == [] then t else es[|es| - 1].now
  }

  /** The readings of the clock never go back, starting from `t`. */
  predicate Forward(t: int, es: seq<Event>) {
    es == [] || (Forward(t, es[..|es| - 1]) && Clock(t, es[..|es| - 1]) <= es[|es| - 1].now)
  }

  function Admissions(b: Value, es: seq<Event>): nat {
    if es == [] then 0
    else
      var init, e := es[..|es| - 1], es[|es| - 1];
      Admissions(b, init) + if e.Ask? && After(b, init).Admits(e.now) then 1 else 0
  }

  predicate StaysOff(b: Value, es: seq<Event>) {
    !After(b, es).mode.Closed? && (es == [] || StaysOff(b, es[..|es| - 1]))
  }

  /** While the breaker has not closed again since it opened at `t`, the probe it admits number n
      is at least n cooldowns after `t`, however many callers ask and whatever stale outcomes of
      earlier calls arrive. */
  lemma {:induction false} ProbesAreSpaced(b: Value, es: seq<Event>)
    requires b.Valid() && b.mode.Open? && Forward(b.openedAt, es) && StaysOff(b, es)
    ensures var n := Admissions(b, es);
            && n * b.cooldown <= Clock(b.openedAt, es) - b.openedAt
            && (After(b, es).mode.Open? ==>
                b.openedAt + n * b.cooldown <= After(b, es).openedAt <= Clock(b.openedAt, es))
  {
    if es != [] {
      var init, e := es[..|es| - 1], es[|es| - 1];
      ProbesAreSpaced(b, init);
      RunKeepsValid(b, init);
      var n := Admissions(b, init);
      assert (n + 1) * b.cooldown == n * b.cooldown + b.cooldown;
    }
  }

  /** And a probe is let through when one is due: an open breaker ignores every outcome and turns away
      every call before the cooldown is over, and admits the first one after, which half-opens it. */
  lemma {:induction false} DueProbeIsAdmitted(b: Value, es: seq<Event>, now: int)
    requires b.Valid() && b.mode.Open?
    requires forall i :: 0 <= i < |es| && es[i].Ask? ==> es[i].now < b.openedAt + b.cooldown
    ensures After(b, es) == b && Admissions(b, es) == 0
    ensures now >= b.openedAt + b.cooldown ==>
              After(b, es).Admits(now) && After(b, es).Allowed(now).mode.HalfOpen?
  {
    if es != [] {
      DueProbeIsAdmitted(b, es[..|es| - 1], now);
    }
  }

  /** Nothing but a success reported while half-open closes a breaker that is not closed: a success
      that arrives while it is open is ignored. Any success will do, also one of a call admitted
      before the breaker opened. */
  lemma ClosesIff(b: Value, e: Event)
    requires b.Valid() && !b.mode.Closed?
    ensures Apply(b, e).mode.Closed? <==> e.Good? && b.mode.HalfOpen?
  {
  }

  /** So between opening and closing again lies an admission at least one cooldown after opening. */
  lemma {:induction false} ClosingNeedsAProbe(b: Value, es: seq<Event>)
    requires b.Valid() && b.mode.Open? && After(b, es).mode.Closed?
    ensures exists k :: 0 <= k < |es| && es[k].Ask? && es[k].now - b.openedAt >= b.cooldown
                        && After(b, es[..k]).mode.Open? && After(b, es[..k]).Admits(es[k].now)
                        && After(b, es[..k]).openedAt == b.openedAt
  {
    var k := 0;
    assert es[..0] == [] && es[..|es|] == es;
    while !(es[k].Ask? && b.Admits(es[k].now))
      invariant 0 <= k < |es| && After(b, es[..k]) == b
      decreases |es| - k
    {
      assert es[..k + 1][..k] == es[..k];
      k := k + 1;
    }
  }

  // ---- the mutable breaker ----

  class Breaker {
    var mode: Mode
    const threshold: int
    const cooldown: int
    const halfOpenProbes: int
    var failures: int
    var probes: int
    var openedAt: int

    ghost function Contents(): Value
      reads this
    {
      Value(mode, threshold, cooldown, halfOpenProbes, failures, probes, openedAt)
    }

    constructor (threshold: int, cooldown: int)
      ensures Contents() == New(threshold, cooldown) && Contents().Valid()
    {
      this.threshold := if threshold <= 0 then DEFAULT_THRESHOLD else threshold;
      this.cooldown := if cooldown <= 0 then DEFAULT_COOLDOWN else cooldown;
      mode, halfOpenProbes, failures, probes, openedAt := Closed, 1, 0, 0, 0;
    }

    method Allow(now: int) returns (ok: bool)
      requires Contents().Valid()
      modifies this
      ensures Contents().Valid() && Contents() == old(Contents()).Allowed(now)
      ensures ok == old(Contents()).Admits(now)
    {
      if mode.Open? {
        if now - openedAt < cooldown {
          return false;
        }
        mode, probes := HalfOpen, 0;
      }
      if mode.HalfOpen? {
        if probes >= halfOpenProbes {
          return false;
        }
        probes := probes + 1;
        return true;
      }
      return true;
    }

    method OnSuccess()
      requires Contents().Valid()
      modifies this
      ensures Contents().Valid() && Contents() == old(Contents()).Succeeded()
    {
      if mode.Open? {
        return;
      }
      mode, failures, probes := Closed, 0, 0;
    }

    method OnFailure(now: int)
      requires Contents().Valid()
      modifies this
      ensures Contents().Valid() && Contents() == old(Contents()).Failed(now)
    {
      match mode {
        case HalfOpen =>
          mode, openedAt, probes, failures := Open, now, 0, failures + 1;
        case Closed =>
          failures := failures + 1;
          if failures >= threshold {
            mode, openedAt := Open, now;
          }
        case Open =>
      }
    }
  }
}
