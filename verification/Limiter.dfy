/** Any number of calls interleaving over one global bucket and the per-endpoint buckets created on
    first use. Each step is what one call does while holding a lock; every sequence of steps is a
    run, because a step that its call cannot take changes nothing. */
module Limiter {
  import opened Prelude
  import opened Lists
  import opened RateLimit

  /** A bucket with its history: when it was created and which calls it let through. */
  datatype Meter = Meter(bucket: Bucket, born: nat, granted: seq<nat>) {

    /** Everything granted was paid for out of the burst and what accrued since creation, and all
        of the burst can be granted. */
    predicate Balanced(limit: Limit) {
      && bucket.Valid() && bucket.limit == limit && born <= bucket.last && Distinct(granted)
      && |granted| as real + bucket.tokens <=
         limit.burst as real + Accrued(limit.tokensPerSecond, bucket.last - born)
      && |granted| as real + bucket.tokens >= limit.burst as real
    }

    function Tried(call: nat, now: nat): Meter {
      Meter(bucket.Tried(now), born, if bucket.Admits(now) then granted + [call] else granted)
    }
  }

  function NewMeter(limit: Limit, now: nat): Meter {
    Meter(NewBucket(limit, now), now, [])
  }

  datatype Phase = AtGlobal | Looking | AtEndpoint | Admitted | Cancelled

  datatype Call = Call(endpoint: string, phase: Phase)

  datatype State = State(
    global: Option<Meter>,
    limits: map<string, Limit>,
    buckets: map<string, Option<Meter>>,
    calls: seq<Call>)
  {
    function At(c: nat, p: Phase): State
      requires c < |calls|
    {
      this.(calls := calls[c := calls[c].(phase := p)])
    }

    function Charged(): set<nat> {
      set c | 0 <= c < |calls| && global.Some? && c in global.value.granted
    }

    function AdmittedTo(e: string): set<nat> {
      set c | 0 <= c < |calls| && calls[c].endpoint == e && calls[c].phase == Admitted
    }

    function AdmittedCalls(): set<nat> {
      set c | 0 <= c < |calls| && calls[c].phase == Admitted
    }
  }

  /** `Enter`: a WaitEndpoint call arrives. `Move`: call `c` takes its next step at clock reading
      `now`; if that step finds no token, it sleeps, and `done` says whether its context ends
      meanwhile. */
  datatype Action = Enter(endpoint: string) | Move(c: nat, now: nat, done: bool)

  function Initial(global: Limit, perEndpoint: map<string, Limit>, now: nat): State {
    var g := global.Normalized();
    State(
      if g.Enabled() then Some(NewMeter(g, now)) else None,
      map e | e in perEndpoint :: perEndpoint[e].Normalized(),
      map[], [])
  }

  /** One pass over a bucket on the way to phase `onward`. */
  function Next(m: Meter, now: nat, done: bool, here: Phase, onward: Phase): Phase {
    if m.bucket.Admits(now) then onward else if done then Cancelled else here
  }

  function PassGlobal(s: State, c: nat, now: nat, done: bool): State
    requires c < |s.calls|
  {
    match s.global
    case None => s.At(c, Looking)
    case Some(m) => s.(global := Some(m.Tried(c, now))).At(c, Next(m, now, done, AtGlobal, Looking))
  }

  /** bucketFor: find the endpoint's bucket or create it; a missing or disabled limit means none. */
  function FindBucket(s: State, c: nat, now: nat): State
    requires c < |s.calls|
  {
    var e := s.calls[c].endpoint;
    var s' := s.At(c, AtEndpoint);
    if e in s.buckets then s'
    else if e in s.limits && s.limits[e].Enabled() then
      s'.(buckets := s.buckets[e := Some(NewMeter(s.limits[e], now))])
    else s'.(buckets := s.buckets[e := None])
  }

  function PassEndpoint(s: State, c: nat, now: nat, done: bool): State
    requires c < |s.calls|
  {
    var e := s.calls[c].endpoint;
    if e !in s.buckets then s
    else match s.buckets[e]
      case None => s.At(c, Admitted)
      case Some(m) =>
        s.(buckets := s.buckets[e := Some(m.Tried(c, now))]).At(c, Next(m, now, done, AtEndpoint, Admitted))
  }

  function Apply(s: State, a: Action): State {
    match a
    case Enter(e) => s.(calls := s.calls + [Call(e, AtGlobal)])
    case Move(c, now, done) =>
      if c >= |s.calls| then s
      else match s.calls[c].phase
        case AtGlobal => PassGlobal(s, c, now, done)
        case Looking => FindBucket(s, c, now)
        case AtEndpoint => PassEndpoint(s, c, now, done)
        case _ => s
  }

  function After(s: State, acts: seq<Action>): State {
    if acts == [] then s else Apply(After(s, acts[..|acts| - 1]), acts[|acts| - 1])
  }

  // ---- the invariant ----

  /** The global bucket granted exactly the calls that got past it. */
  ghost predicate GlobalOk(s: State) {
    s.global.Some? ==>
      && s.global.value.Balanced(s.global.value.bucket.limit)
      && (forall c :: c in s.global.value.granted ==> c < |s.calls| && s.calls[c].phase != AtGlobal)
      && (forall c :: 0 <= c < |s.calls| && s.calls[c].phase in {Looking, AtEndpoint, Admitted} ==>
            c in s.global.value.granted)
  }

  /** An endpoint's bucket granted exactly the admitted calls to that endpoint; there is one when
      and only when a usable limit is configured. */
  ghost predicate BucketOk(s: State, e: string) {
    e in s.buckets ==>
      && (s.buckets[e].Some? <==> e in s.limits && s.limits[e].Enabled())
      && (s.buckets[e].Some? ==>
            && s.buckets[e].value.Balanced(s.limits[e])
            && forall c :: c in s.buckets[e].value.granted <==> c in s.AdmittedTo(e))
  }

  ghost predicate CallOk(s: State, c: nat) {
    c < |s.calls| && s.calls[c].phase in {AtEndpoint, Admitted} ==> s.calls[c].endpoint in s.buckets
  }

  ghost predicate Inv(s: State) {
    && GlobalOk(s)
    && (forall e {:trigger BucketOk(s, e)} :: BucketOk(s, e))
    && (forall c {:trigger CallOk(s, c)} :: CallOk(s, c))
  }

  lemma TryKeepsBalance(m: Meter, limit: Limit, c: nat, now: nat)
    requires m.Balanced(limit) && c !in m.granted
    ensures m.Tried(c, now).Balanced(limit)
  {
    TryBalances(m.bucket, now);
    NeverLoses(m.bucket, now);
    AccruedAdds(limit.tokensPerSecond, m.bucket.last - m.born, m.bucket.Tried(now).last - m.bucket.last);
    DistinctAppend(m.granted, c);
    hide Accrued;
  }

  lemma PassGlobalKeepsInv(s: State, c: nat, now: nat, done: bool)
    requires Inv(s) && c < |s.calls| && s.calls[c].phase == AtGlobal
    ensures Inv(PassGlobal(s, c, now, done))
  {
    var s' := PassGlobal(s, c, now, done);
    if s.global.Some? {
      TryKeepsBalance(s.global.value, s.global.value.bucket.limit, c, now);
    }
    hide Accrued;
    forall e ensures BucketOk(s', e) {
      assert BucketOk(s, e);
      assert s'.AdmittedTo(e) == s.AdmittedTo(e);
    }
    forall d ensures CallOk(s', d) {
      assert CallOk(s, d);
    }
  }

  lemma FindBucketKeepsInv(s: State, c: nat, now: nat)
    requires Inv(s) && c < |s.calls| && s.calls[c].phase == Looking
    ensures Inv(FindBucket(s, c, now))
  {
    var s' := FindBucket(s, c, now);
    forall e ensures BucketOk(s', e) {
      assert BucketOk(s, e);
      assert s'.AdmittedTo(e) == s.AdmittedTo(e);
      if e == s.calls[c].endpoint && e !in s.buckets {
        forall d | 0 <= d < |s.calls| ensures d !in s.AdmittedTo(e) {
          assert CallOk(s, d);
        }
      }
    }
    forall d ensures CallOk(s', d) {
      assert CallOk(s, d);
    }
  }

  lemma PassEndpointKeepsInv(s: State, c: nat, now: nat, done: bool)
    requires Inv(s) && c < |s.calls| && s.calls[c].phase == AtEndpoint
    ensures Inv(PassEndpoint(s, c, now, done))
  {
    var s', e := PassEndpoint(s, c, now, done), s.calls[c].endpoint;
    assert CallOk(s, c) && BucketOk(s, e);
    if s.buckets[e].Some? {
      assert c !in s.AdmittedTo(e);
      TryKeepsBalance(s.buckets[e].value, s.limits[e], c, now);
    }
    hide Accrued;
    forall e' ensures BucketOk(s', e') {
      assert BucketOk(s, e');
      assert s'.AdmittedTo(e') ==
             s.AdmittedTo(e') + if e' == e && s'.calls[c].phase == Admitted then {c} else {};
    }
    forall d ensures CallOk(s', d) {
      assert CallOk(s, d);
    }
  }

  lemma ApplyKeepsInv(s: State, a: Action)
    requires Inv(s)
    ensures Inv(Apply(s, a))
  {
    hide Accrued;
    match a
    case Enter(e) =>
      var s' := Apply(s, a);
      forall e' ensures BucketOk(s', e') {
        assert BucketOk(s, e');
        assert s'.AdmittedTo(e') == s.AdmittedTo(e');
      }
      forall d ensures CallOk(s', d) {
        assert CallOk(s, d);
      }
    case Move(c, now, done) =>
      if c < |s.calls| {
        if s.calls[c].phase == AtGlobal {
          PassGlobalKeepsInv(s, c, now, done);
        } else if s.calls[c].phase == Looking {
          FindBucketKeepsInv(s, c, now);
        } else if s.calls[c].phase == AtEndpoint {
          PassEndpointKeepsInv(s, c, now, done);
        }
      }
  }

  /** Between `m` and `m'` the same bucket granted only what it held or accrued. */
  predicate Grew(m: Meter, m': Meter) {
    && m'.bucket.limit == m.bucket.limit && m'.born == m.born
    && m.bucket.last <= m'.bucket.last && m.granted <= m'.granted
    && |m'.granted| as real + m'.bucket.tokens <=
       |m.granted| as real + m.bucket.tokens
       + Accrued(m.bucket.limit.tokensPerSecond, m'.bucket.last - m.bucket.last)
  }

  lemma TryGrows(m: Meter, c: nat, now: nat)
    requires m.bucket.Valid()
    ensures Grew(m, m.Tried(c, now))
  {
    TryBalances(m.bucket, now);
  }

  lemma GrewAgain(m: Meter, m': Meter, m'': Meter)
    requires Grew(m, m') && Grew(m', m'')
    ensures Grew(m, m'')
  {
    var rate, d, d' := m.bucket.limit.tokensPerSecond, m'.bucket.last - m.bucket.last, m''.bucket.last - m'.bucket.last;
    AccruedAdds(rate, d, d');
    assert d + d' == m''.bucket.last - m.bucket.last;
    hide Accrued;
  }

  lemma GrewNot(m: Meter)
    ensures Grew(m, m)
  {
  }

  /** A bucket once found stays, and grows. */
  predicate BucketGrew(s: State, s': State, e: string) {
    e in s.buckets ==>
      && e in s'.buckets && s'.buckets[e].Some? == s.buckets[e].Some?
      && (s.buckets[e].Some? ==> Grew(s.buckets[e].value, s'.buckets[e].value))
  }

  ghost predicate AllGrew(s: State, s': State) {
    && s'.limits == s.limits && s'.global.Some? == s.global.Some?
    && (s.global.Some? ==> Grew(s.global.value, s'.global.value))
    && (forall e {:trigger BucketGrew(s, s', e)} :: BucketGrew(s, s', e))
  }

  lemma ApplyGrows(s: State, a: Action)
    requires Inv(s)
    ensures AllGrew(s, Apply(s, a))
  {
    var s' := Apply(s, a);
    forall m: Meter ensures Grew(m, m) {
      GrewNot(m);
    }
    if a.Move? && a.c < |s.calls| {
      var e := s.calls[a.c].endpoint;
      assert BucketOk(s, e);
      if s.calls[a.c].phase == AtGlobal && s.global.Some? {
        TryGrows(s.global.value, a.c, a.now);
      }
      if s.calls[a.c].phase == AtEndpoint && e in s.buckets && s.buckets[e].Some? {
        TryGrows(s.buckets[e].value, a.c, a.now);
      }
    }
    hide Grew, GlobalOk, BucketOk, CallOk;
    forall e ensures BucketGrew(s, s', e) {
    }
  }

  /** From any state that keeps the books, over any run: the books are kept, and every bucket has
      granted at most what it held at the start and what accrued since. */
  lemma {:induction false} RunKeepsInv(s: State, acts: seq<Action>)
    requires Inv(s)
    ensures Inv(After(s, acts)) && AllGrew(s, After(s, acts))
  {
    if acts == [] {
      forall m: Meter ensures Grew(m, m) {
        GrewNot(m);
      }
      assert forall e :: BucketGrew(s, s, e);
    } else {
      var m, s' := After(s, acts[..|acts| - 1]), After(s, acts);
      RunKeepsInv(s, acts[..|acts| - 1]);
      ApplyKeepsInv(m, acts[|acts| - 1]);
      ApplyGrows(m, acts[|acts| - 1]);
      hide Inv, Apply, Grew;
      if s.global.Some? {
        GrewAgain(s.global.value, m.global.value, s'.global.value);
      }
      forall e ensures BucketGrew(s, s', e) {
        assert BucketGrew(s, m, e) && BucketGrew(m, s', e);
        if e in s.buckets && s.buckets[e].Some? {
          GrewAgain(s.buckets[e].value, m.buckets[e].value, s'.buckets[e].value);
        }
      }
    }
  }

  lemma {:induction false} AfterSplit(s: State, acts: seq<Action>, k: nat)
    requires k <= |acts|
    ensures After(s, acts) == After(After(s, acts[..k]), acts[k..])
  {
    if k == |acts| {
      assert acts[..k] == acts;
    } else {
      var init := acts[..|acts| - 1];
      AfterSplit(s, init, k);
      assert init[..k] == acts[..k];
      assert acts[k..][..|acts[k..]| - 1] == init[k..];
    }
  }

  // ---- what every run obeys ----

  /** A full bucket owes nothing. */
  lemma InitialIsInv(global: Limit, perEndpoint: map<string, Limit>, now: nat)
    ensures Inv(Initial(global, perEndpoint, now))
  {
    var s := Initial(global, perEndpoint, now);
    assert forall e :: BucketOk(s, e);
    assert forall c :: CallOk(s, c);
  }

  /** The states at point k and at the end of a run. */
  ghost predicate Window(
    global: Limit, perEndpoint: map<string, Limit>, start: nat, acts: seq<Action>, k: nat, s: State, s': State)
  {
    k <= |acts| && s == After(Initial(global, perEndpoint, start), acts[..k])
    && s' == After(Initial(global, perEndpoint, start), acts)
  }

  lemma WindowGrows(
    global: Limit, perEndpoint: map<string, Limit>, start: nat, acts: seq<Action>, k: nat, s: State, s': State)
    requires Window(global, perEndpoint, start, acts, k, s, s')
    ensures Inv(s) && Inv(s') && AllGrew(s, s')
    ensures var s0 := Initial(global, perEndpoint, start); AllGrew(s0, s) && AllGrew(s0, s')
  {
    var s0 := Initial(global, perEndpoint, start);
    InitialIsInv(global, perEndpoint, start);
    RunKeepsInv(s0, acts[..k]);
    AfterSplit(s0, acts, k);
    RunKeepsInv(s, acts[k..]);
    RunKeepsInv(s0, acts);
  }

  lemma ChargedIsGranted(s: State)
    requires Inv(s) && s.global.Some?
    ensures |s.Charged()| == |s.global.value.granted| && s.AdmittedCalls() <= s.Charged()
  {
    assert s.Charged() == ToSet(s.global.value.granted);
    DistinctCardinality(s.global.value.granted);
  }

  /** With a global limit, between any two points of any run, however calls interleave, whatever
      the clock readings, and whichever of them give up: the calls charged to the global bucket are
      at most Burst plus the rate times the advance of its clock, and no call is ever admitted to
      its endpoint without such a charge. A call that gives up at its endpoint stays charged. */
  lemma GlobalLimitHolds(
    global: Limit, perEndpoint: map<string, Limit>, start: nat, acts: seq<Action>, k: nat, s: State, s': State)
    requires global.Normalized().Enabled() && Window(global, perEndpoint, start, acts, k, s, s')
    ensures s.global.Some? && s'.global.Some?
    ensures var g, from, to := global.Normalized(), s.global.value.bucket.last, s'.global.value.bucket.last;
            && start <= from <= to
            && s.Charged() <= s'.Charged() && s'.AdmittedCalls() <= s'.Charged()
            && (|s'.Charged()| - |s.Charged()|) as real <= g.burst as real + Accrued(g.tokensPerSecond, to - from)
  {
    WindowGrows(global, perEndpoint, start, acts, k, s, s');
    hide Accrued;
    ChargedIsGranted(s);
    ChargedIsGranted(s');
    assert forall c :: c in s.global.value.granted ==> c in s'.global.value.granted;
    assert s.Charged() == ToSet(s.global.value.granted) && s'.Charged() == ToSet(s'.global.value.granted);
  }

  lemma AdmittedIsGranted(s: State, e: string)
    requires Inv(s)
    ensures e !in s.buckets ==> s.AdmittedTo(e) == {}
    ensures e in s.buckets && s.buckets[e].Some? ==> |s.AdmittedTo(e)| == |s.buckets[e].value.granted|
  {
    assert BucketOk(s, e);
    if e !in s.buckets {
      forall d | 0 <= d < |s.calls| ensures d !in s.AdmittedTo(e) {
        assert CallOk(s, d);
      }
    } else if s.buckets[e].Some? {
      assert s.AdmittedTo(e) == ToSet(s.buckets[e].value.granted);
      DistinctCardinality(s.buckets[e].value.granted);
    }
  }

  /** Likewise for the calls admitted to an endpoint with a usable limit: between any two points,
      at most its Burst plus its rate times the advance of its bucket's clock, counted from the
      first point or from the creation of the bucket in between. */
  lemma EndpointLimitHolds(
    global: Limit, perEndpoint: map<string, Limit>, start: nat, acts: seq<Action>, k: nat, s: State, s': State,
    e: string)
    requires e in perEndpoint && perEndpoint[e].Normalized().Enabled()
    requires Window(global, perEndpoint, start, acts, k, s, s')
    ensures e !in s'.buckets ==> s'.AdmittedTo(e) == {}
    ensures e in s'.buckets ==>
              && s'.buckets[e].Some? && (e in s.buckets ==> s.buckets[e].Some?)
              && var limit, m' := perEndpoint[e].Normalized(), s'.buckets[e].value;
                 var from := if e in s.buckets then s.buckets[e].value.bucket.last else m'.born;
                 && from <= m'.bucket.last
                 && (|s'.AdmittedTo(e)| - |s.AdmittedTo(e)|) as real <=
                    limit.burst as real + Accrued(limit.tokensPerSecond, m'.bucket.last - from)
  {
    WindowGrows(global, perEndpoint, start, acts, k, s, s');
    AdmittedIsGranted(s, e);
    AdmittedIsGranted(s', e);
    assert BucketOk(s, e) && BucketOk(s', e) && BucketGrew(s, s', e);
    hide Accrued, Window;
  }

  /** No call is held back before the burst is used up: in every run, while fewer than Burst calls
      have been charged globally, a call at the global bucket passes it on its next step, and while
      fewer than Burst calls have been admitted to a limited endpoint, one at its bucket is admitted
      on its next step, whatever the clock reads. */
  lemma BurstPasses(
    global: Limit, perEndpoint: map<string, Limit>, start: nat, acts: seq<Action>, c: nat, now: nat, done: bool)
    requires c < |After(Initial(global, perEndpoint, start), acts).calls|
    ensures var s := After(Initial(global, perEndpoint, start), acts);
            var e, g := s.calls[c].endpoint, global.Normalized();
            var s' := Apply(s, Move(c, now, done));
            && |s'.calls| == |s.calls|
            && (s.calls[c].phase == AtGlobal && (g.Enabled() ==> |s.Charged()| < g.burst) ==>
                  s'.calls[c].phase == Looking)
            && (s.calls[c].phase == AtEndpoint && e in perEndpoint && perEndpoint[e].Normalized().Enabled()
                && |s.AdmittedTo(e)| < perEndpoint[e].Normalized().burst ==>
                  s'.calls[c].phase == Admitted)
            && (s.calls[c].phase == AtEndpoint && !(e in perEndpoint && perEndpoint[e].Normalized().Enabled()) ==>
                  s'.calls[c].phase == Admitted)
  {
    var s0 := Initial(global, perEndpoint, start);
    var s := After(s0, acts);
    InitialIsInv(global, perEndpoint, start);
    RunKeepsInv(s0, acts);
    var e := s.calls[c].endpoint;
    assert CallOk(s, c) && BucketOk(s, e);
    AdmittedIsGranted(s, e);
    if s.global.Some? {
      ChargedIsGranted(s);
      NeverLoses(s.global.value.bucket, now);
    }
    if e in s.buckets && s.buckets[e].Some? {
      NeverLoses(s.buckets[e].value.bucket, now);
    }
    hide Accrued, After, Bucket.Refilled;
  }

  // ---- the mutable map of endpoint buckets ----

  class EndpointBuckets {
    const perEndpoint: map<string, Limit>
    var buckets: map<string, TokenBucket?>

    constructor (perEndpoint: map<string, Limit>)
      ensures buckets == map[]
      ensures this.perEndpoint == map e | e in perEndpoint :: perEndpoint[e].Normalized()
    {
      this.perEndpoint := map e | e in perEndpoint :: perEndpoint[e].Normalized();
      buckets := map[];
    }

    /** One bucket per endpoint for good: created full at its first use when the endpoint has a
        usable limit, and absent for good otherwise. */
    method BucketFor(endpoint: string, now: nat) returns (b: TokenBucket?)
      modifies this
      ensures endpoint in buckets && buckets[endpoint] == b
      ensures endpoint in old(buckets) ==> buckets == old(buckets)
      ensures endpoint !in old(buckets) ==>
                && buckets == old(buckets)[endpoint := b]
                && (b != null <==> endpoint in perEndpoint && perEndpoint[endpoint].Enabled())
                && (b != null ==> fresh(b) && b.Value() == NewBucket(perEndpoint[endpoint], now) && b.Value().Valid())
    {
      if endpoint in buckets {
        return buckets[endpoint];
      }
      if endpoint !in perEndpoint || !perEndpoint[endpoint].Enabled() {
        buckets := buckets[endpoint := null];
        return null;
      }
      b := new TokenBucket(perEndpoint[endpoint], now);
      buckets := buckets[endpoint := b];
    }
  }
}
