/** Whole runs of the registry: what holds after any sequence of subscribes, cancels, refused
    re-subscribes and a close, each taken as one step. */
module PushRuns {
  import opened Lists
  import opened PushKeys
  import opened PushRouting
  import opened PushRegistry
  import opened PushInvariant

  // ---- the Gateway's side ----

  /** Whether the last call for `key` was a subscribe. */
  predicate On(calls: seq<GatewayCall>, key: string) {
    if calls == [] then false
    else
      var last := calls[|calls| - 1];
      if last.key == key then last.Subscribed? else On(calls[..|calls| - 1], key)
  }

  /** For each key, subscribes and unsubscribes take turns, a subscribe first. */
  predicate Alternates(calls: seq<GatewayCall>) {
    calls == []
    || (var init, last := calls[..|calls| - 1], calls[|calls| - 1];
        Alternates(init) && (last.Subscribed? <==> !On(init, last.key)))
  }

  /** The Gateway is subscribed to exactly the keys that have an entry. */
  ghost predicate GatewayAgrees(r: Registry) {
    && Alternates(r.calls)
    && (if r.closed then r.entries == map[] else forall key :: On(r.calls, key) <==> key in r.entries)
  }

  lemma Called(r: Registry, call: GatewayCall)
    requires Alternates(r.calls) && (call.Subscribed? <==> !On(r.calls, call.key))
    ensures Alternates(r.calls + [call])
    ensures forall key :: On(r.calls + [call], key) <==> if key == call.key then call.Subscribed? else On(r.calls, key)
  {
    assert (r.calls + [call])[..|r.calls|] == r.calls;
  }

  lemma SubscribeKeepsGateway(r: Registry, topic: TopicId, securities: seq<Security>)
    requires Inv(r) && GatewayAgrees(r) && !r.closed
    ensures GatewayAgrees(Subscribe(r, topic, securities))
  {
    hide CanonicalKey, RoutingKeys;
    var key := CanonicalKey(topic, securities);
    assert key in r.entries ==> EntryOk(r, key);
    if key !in r.entries {
      Called(r, Subscribed(key));
    }
  }

  lemma CancelKeepsGateway(r: Registry, s: nat)
    requires Inv(r) && GatewayAgrees(r) && s < |r.subs|
    ensures GatewayAgrees(Cancel(r, s))
  {
    hide CanonicalKey, RoutingKeys;
    if !r.subs[s].closed {
      EntryOf(r, s);
      Called(r, Unsubscribed(r.subs[s].Key()));
    }
  }

  lemma KillKeepsGateway(r: Registry, key: string)
    requires Inv(r) && GatewayAgrees(r) && key in r.entries
    ensures r.entries[key] < |r.heap| && GatewayAgrees(Kill(r, r.entries[key]))
  {
    hide CanonicalKey, RoutingKeys;
    assert EntryOk(r, key);
    Called(r, Unsubscribed(key));
  }

  // ---- runs ----

  /** `Resubscribe` is a reconnect's attempt to renew one registered key: accepted, it changes
      nothing here; refused, it tears the entry down. */
  datatype Action =
    | DoSubscribe(topic: TopicId, securities: seq<Security>, accepted: bool)
    | DoCancel(sub: nat)
    | Resubscribe(key: string, accepted: bool)
    | DoClose

  ghost function Apply(r: Registry, act: Action): Registry {
    match act
    case DoSubscribe(topic, securities, accepted) =>
      if Admits(r, topic, securities, accepted) then Subscribe(r, topic, securities) else r
    case DoCancel(s) => if s < |r.subs| then Cancel(r, s) else r
    case Resubscribe(key, accepted) =>
      if !accepted && key in r.entries && r.entries[key] < |r.heap| then Kill(r, r.entries[key]) else r
    case DoClose => Close(r)
  }

  ghost function After(acts: seq<Action>): Registry {
    if acts == [] then EMPTY else Apply(After(acts[..|acts| - 1]), acts[|acts| - 1])
  }

  /** Whether the action is not an admitted subscription that joins an entry routed differently. */
  ghost predicate Agreeable(r: Registry, act: Action) {
    act.DoSubscribe? && Admits(r, act.topic, act.securities, act.accepted) ==> Agrees(r, act.topic, act.securities)
  }

  /** Every subscription of the run that joined an entry agreed with it. */
  ghost predicate AgreeingRun(acts: seq<Action>) {
    acts == [] || (AgreeingRun(acts[..|acts| - 1]) && Agreeable(After(acts[..|acts| - 1]), acts[|acts| - 1]))
  }

  ghost predicate Safe(r: Registry) {
    Inv(r) && GatewayAgrees(r)
  }

  lemma CloseKeepsInv(r: Registry)
    requires Inv(r)
    ensures Inv(Close(r))
  {
    hide CanonicalKey, RoutingKeys;
    var r' := Close(r);
    forall s | 0 <= s < |r.subs| ensures r'.subs[s].closed && SubOk(r', s) {
      assert SubOk(r, s);
      if !r.subs[s].closed {
        assert r.subs[s].Key() in r.entries;
        assert HeldByAnEntry(r, s);
      }
    }
    forall e | 0 <= e < |r'.heap| ensures HeapOk(r', e) {
      assert HeapOk(r, e);
    }
    forall k ensures BucketOk(r', k) {
    }
  }

  lemma ApplyKeepsSafeIff(r: Registry, act: Action)
    requires Safe(r)
    ensures Safe(Apply(r, act)) <==> Agreeable(r, act)
  {
    hide CanonicalKey, RoutingKeys, Agrees;
    match act {
      case DoSubscribe(topic, securities, accepted) =>
        if Admits(r, topic, securities, accepted) {
          SubscribeKeepsInvIff(r, topic, securities);
          SubscribeKeepsGateway(r, topic, securities);
        }
      case DoCancel(s) =>
        if s < |r.subs| {
          CancelKeepsInv(r, s);
          CancelKeepsGateway(r, s);
        }
      case Resubscribe(key, accepted) =>
        if !accepted && key in r.entries {
          KillKeepsGateway(r, key);
          assert EntryOk(r, key);
          KillKeepsInvIff(r, r.entries[key]);
        }
      case DoClose =>
        CloseKeepsInv(r);
    }
  }

  ghost predicate AlwaysSafe(acts: seq<Action>) {
    Safe(After(acts)) && (acts == [] || AlwaysSafe(acts[..|acts| - 1]))
  }

  /** Over every run of subscribe, cancel, renewal and close: the registry, the index and the Gateway
      agree at every point if and only if every subscription that joined an entry was for
      instruments that route like the entry's. */
  lemma {:induction false} RunIsSafeIff(acts: seq<Action>)
    ensures AlwaysSafe(acts) <==> AgreeingRun(acts)
  {
    if acts == [] {
      EmptyInv();
    } else {
      var init := acts[..|acts| - 1];
      RunIsSafeIff(init);
      hide Safe, Apply, Agreeable;
      if AgreeingRun(init) {
        AlwaysSafeNow(init);
        ApplyKeepsSafeIff(After(init), acts[|acts| - 1]);
      }
    }
  }

  lemma AlwaysSafeNow(acts: seq<Action>)
    requires AlwaysSafe(acts)
    ensures Safe(After(acts))
  {
  }

  lemma RunIsSafe(acts: seq<Action>)
    requires AgreeingRun(acts)
    ensures Safe(After(acts))
  {
    RunIsSafeIff(acts);
  }

  /** No code asked for in the run splits. */
  ghost predicate CleanRun(acts: seq<Action>) {
    forall i :: 0 <= i < |acts| && acts[i].DoSubscribe? ==> NoneSplits(acts[i].securities)
  }

  ghost predicate NoneSplits(securities: seq<Security>) {
    forall s :: s in securities ==> !Splits(s.code)
  }

  ghost predicate CleanEntries(r: Registry) {
    forall e :: 0 <= e < |r.heap| ==> Clean(r.heap[e].securities)
  }

  lemma StaysClean(r: Registry, act: Action)
    requires CleanEntries(r) && (act.DoSubscribe? ==> NoneSplits(act.securities))
    ensures CleanEntries(Apply(r, act))
  {
    hide CanonicalKey, RoutingKeys, Splits;
  }

  lemma CleanAgrees(r: Registry, act: Action)
    requires CleanEntries(r) && Inv(r) && (act.DoSubscribe? ==> NoneSplits(act.securities))
    ensures Agreeable(r, act)
  {
    hide CanonicalKey, RoutingKeys, Splits;
    if act.DoSubscribe? && Admits(r, act.topic, act.securities, act.accepted) {
      var key := CanonicalKey(act.topic, act.securities);
      if key in r.entries {
        assert EntryOk(r, key);
        var entry := r.heap[r.entries[key]];
        SameKeySameRouting(act.topic, act.securities, entry.topic, entry.securities);
      }
    }
  }

  /** A run in which no code splits agrees: all that follows holds of it. */
  lemma {:induction false} CleanRunsAgree(acts: seq<Action>)
    requires CleanRun(acts)
    ensures AgreeingRun(acts) && CleanEntries(After(acts))
  {
    hide Apply, Agreeable, Inv, NoneSplits;
    if acts != [] {
      var init := acts[..|acts| - 1];
      CleanRunsAgree(init);
      RunIsSafe(init);
      StaysClean(After(init), acts[|acts| - 1]);
      CleanAgrees(After(init), acts[|acts| - 1]);
    }
  }

  /** The entry of `key` holds subscription `s`. */
  predicate Holds(r: Registry, key: string, s: nat) {
    key in r.entries && r.entries[key] < |r.heap| && s in r.heap[r.entries[key]].subs
  }

  /** After any agreeing run: every entry is stored under its own key and is not empty, and a
      subscription is live exactly when an entry holds it, which is then the only one. */
  lemma LiveSubscriptionsHaveOneEntry(acts: seq<Action>, s: nat)
    requires AgreeingRun(acts) && s < |After(acts).subs|
    ensures var r := After(acts);
            && (forall key :: key in r.entries ==>
                  r.entries[key] < |r.heap| && r.heap[r.entries[key]].Key() == key && r.heap[r.entries[key]].subs != [])
            && (!r.subs[s].closed <==> exists key :: Holds(r, key, s))
            && (forall k, k' :: Holds(r, k, s) && Holds(r, k', s) ==> k == k')
  {
    hide CanonicalKey, RoutingKeys;
    var r := After(acts);
    RunIsSafe(acts);
    assert SubOk(r, s);
    assert !r.subs[s].closed ==> Holds(r, r.subs[s].Key(), s);
    forall key | key in r.entries ensures EntryOk(r, key) {
    }
  }

  /** After any agreeing run: a bucket holds exactly the live subscriptions whose instruments have its
      routing key, each once, and no bucket is empty. */
  lemma BucketsAreExact(acts: seq<Action>, k: string)
    requires AgreeingRun(acts)
    ensures var r := After(acts);
            && Distinct(Bucket(r.byKey, k))
            && (k in r.byKey ==> r.byKey[k] != [])
            && (forall s: nat :: s in Bucket(r.byKey, k) <==>
                  s < |r.subs| && !r.subs[s].closed && k in RoutingKeys(r.subs[s].securities))
  {
    hide CanonicalKey, RoutingKeys;
    RunIsSafe(acts);
    assert BucketOk(After(acts), k);
    assert forall s :: s in Bucket(After(acts).byKey, k) <==> Wants(After(acts), s, k);
  }

  /** What `dispatchMarket` collects, each once: every subscription in the bucket of the normal form
      of the update's notify id or of its payload code, where it has them. */
  ghost predicate Routed(r: Registry, id: string, code: string, targets: seq<nat>) {
    && Distinct(targets)
    && forall s :: s in targets <==>
         || (id != "" && s in Bucket(r.byKey, NormaliseRoutingKey(id)))
         || (code != "" && s in Bucket(r.byKey, NormaliseRoutingKey(code)))
  }

  /** Whether one of the instruments is routed like `raw`, which is not blank. */
  ghost predicate Matches(securities: seq<Security>, raw: string) {
    raw != "" && exists i ::
      0 <= i < |securities| && securities[i].code != ""
      && NormaliseRoutingKey(securities[i].code) == NormaliseRoutingKey(raw)
  }

  lemma MatchesIff(securities: seq<Security>, raw: string)
    ensures Matches(securities, raw) <==> raw != "" && NormaliseRoutingKey(raw) in RoutingKeys(securities)
  {
    hide NormaliseRoutingKey;
  }

  /** After any agreeing run: an update reaches, once each, exactly the live subscriptions one of
      whose codes has the normal form of its notify id or of its payload code. */
  lemma DispatchIsExact(acts: seq<Action>, id: string, code: string, targets: seq<nat>)
    requires AgreeingRun(acts) && Routed(After(acts), id, code, targets)
    ensures var r := After(acts);
            && Distinct(targets)
            && (forall s: nat :: s in targets <==>
                  && s < |r.subs| && !r.subs[s].closed
                  && (Matches(r.subs[s].securities, id) || Matches(r.subs[s].securities, code)))
  {
    hide CanonicalKey, RoutingKeys, NormaliseRoutingKey, Matches, After;
    var r := After(acts);
    BucketsAreExact(acts, NormaliseRoutingKey(id));
    BucketsAreExact(acts, NormaliseRoutingKey(code));
    forall s: nat | s < |r.subs|
      ensures Matches(r.subs[s].securities, id) <==>
              id != "" && NormaliseRoutingKey(id) in RoutingKeys(r.subs[s].securities)
      ensures Matches(r.subs[s].securities, code) <==>
              code != "" && NormaliseRoutingKey(code) in RoutingKeys(r.subs[s].securities)
    {
      MatchesIff(r.subs[s].securities, id);
      MatchesIff(r.subs[s].securities, code);
    }
  }

  /** After any agreeing run: for each key the Gateway was told subscribe and unsubscribe in turns, and
      until Close it is subscribed to exactly the keys some live subscription has. */
  lemma GatewayFollowsTheHolders(acts: seq<Action>)
    requires AgreeingRun(acts)
    ensures var r := After(acts);
            && Alternates(r.calls)
            && (!r.closed ==> forall key :: On(r.calls, key) <==>
                  exists s :: 0 <= s < |r.subs| && !r.subs[s].closed && r.subs[s].Key() == key)
  {
    hide CanonicalKey, RoutingKeys;
    var r := After(acts);
    RunIsSafe(acts);
    if !r.closed {
      forall key ensures On(r.calls, key) <==>
                         exists s :: 0 <= s < |r.subs| && !r.subs[s].closed && r.subs[s].Key() == key
      {
        if key in r.entries {
          assert EntryOk(r, key);
          var s := r.heap[r.entries[key]].subs[0];
          assert s in r.heap[r.entries[key]].subs;
        }
        if s :| 0 <= s < |r.subs| && !r.subs[s].closed && r.subs[s].Key() == key {
          assert SubOk(r, s);
        }
      }
    }
  }

  /** Cancelling tells the Gateway to unsubscribe exactly when no other live subscription has the
      key. */
  lemma CancelUnsubscribesIffLast(r: Registry, s: nat)
    requires Safe(r) && s < |r.subs| && !r.subs[s].closed
    ensures var last := forall t ::
              0 <= t < |r.subs| && t != s && !r.subs[t].closed ==> r.subs[t].Key() != r.subs[s].Key();
            Cancel(r, s).calls == if last then r.calls + [Unsubscribed(r.subs[s].Key())] else r.calls
  {
    hide CanonicalKey, RoutingKeys;
    EntryOf(r, s);
    var key := r.subs[s].Key();
    var held := r.heap[r.entries[key]].subs;
    assert EntryOk(r, key);
    WithoutMembers(held, s);
    var left := Without(held, s);
    if left == [] {
      forall t | 0 <= t < |r.subs| && t != s && !r.subs[t].closed ensures r.subs[t].Key() != key {
        assert SubOk(r, t);
        assert t !in left;
      }
    } else {
      assert left[0] in left;
    }
  }

  /** After subscribing to `a` and then to `b`, the second subscription is live and not in bucket
      `k`, although one of its own instruments is routed on `k`. */
  ghost predicate Misroutes(topic: TopicId, a: seq<Security>, b: seq<Security>, k: string) {
    var r := After([] + [DoSubscribe(topic, a, true)] + [DoSubscribe(topic, b, true)]);
    && |r.subs| == 2 && r.subs[1] == Sub(topic, b, false)
    && k in RoutingKeys(b) && 1 !in Bucket(r.byKey, k)
  }

  /** The exact condition for routing, over every first subscription that is admitted: a second one
      can miss the updates of one of its own instruments if and only if the first names several
      instruments or one that can pass for two. */
  lemma MisroutesIff(topic: TopicId, a: seq<Security>)
    requires Mapped(topic) && WellFormed(a)
    ensures (exists b, k :: WellFormed(b) && Misroutes(topic, a, b, k)) <==> |a| >= 2 || Forks(a[0])
  {
    hide Misroutes, Forks;
    if |a| >= 2 || Forks(a[0]) {
      var b, k := CollisionMisroutes(topic, a);
    } else if exists b, k :: WellFormed(b) && Misroutes(topic, a, b, k) {
      var b, k :| WellFormed(b) && Misroutes(topic, a, b, k);
      MisrouteCollides(topic, a, b, k);
      CollidesIff(a);
      assert false;
    }
  }

  lemma CollisionMisroutes(topic: TopicId, a: seq<Security>) returns (b: seq<Security>, k: string)
    requires Mapped(topic) && WellFormed(a) && (|a| >= 2 || Forks(a[0]))
    ensures WellFormed(b) && Misroutes(topic, a, b, k)
  {
    hide CanonicalKey, NormaliseRoutingKey, RoutingKeys, After, Nuls, Forks;
    b := CollidesApart(a);
    k := NormaliseRoutingKey(b[0].code);
    assert WellFormed(b) && CanonicalKey(topic, a) == CanonicalKey(topic, b);
    RoutedApart(a, b[0]);
    RoutedOn(b, b[0]);
    SubscribedTogether(topic, a, b);
  }

  /** Only a shared key can misroute: with keys of their own, subscriptions are indexed by their own
      instruments, and with the same contents the entry's do as well. */
  lemma MisrouteCollides(topic: TopicId, a: seq<Security>, b: seq<Security>, k: string)
    requires Mapped(topic) && WellFormed(a) && WellFormed(b) && Misroutes(topic, a, b, k)
    ensures Collide(a, b)
  {
    hide CanonicalKey, RoutingKeys, After;
    if CanonicalKey(topic, a) != CanonicalKey(topic, b) {
      SubscribedApart(topic, a, b);
      assert false;
    } else {
      SubscribedTogether(topic, a, b);
      KeysShared(topic, a, b);
      if multiset(a) == multiset(b) {
        SameContentsSameRouting(a, b);
        assert false;
      }
    }
  }

  lemma SubscribedApart(topic: TopicId, a: seq<Security>, b: seq<Security>)
    requires Mapped(topic) && WellFormed(a) && WellFormed(b) && CanonicalKey(topic, a) != CanonicalKey(topic, b)
    ensures var r := After([] + [DoSubscribe(topic, a, true)] + [DoSubscribe(topic, b, true)]);
            r.byKey == Indexed(Indexed(map[], RoutingKeys(a), 0), RoutingKeys(b), 1)
  {
    hide CanonicalKey, RoutingKeys, Subscribe, Indexed;
    SubscribedBoth(topic, a, b);
    SubscribesAnew(EMPTY, topic, a);
    SubscribesAnew(Subscribe(EMPTY, topic, a), topic, b);
  }

  lemma SubscribedBoth(topic: TopicId, a: seq<Security>, b: seq<Security>)
    requires Mapped(topic) && WellFormed(a) && WellFormed(b)
    ensures After([] + [DoSubscribe(topic, a, true)] + [DoSubscribe(topic, b, true)]) ==
            Subscribe(Subscribe(EMPTY, topic, a), topic, b)
  {
    hide CanonicalKey, RoutingKeys, Subscribe;
    AfterOneMore([], DoSubscribe(topic, a, true));
    AfterOneMore([] + [DoSubscribe(topic, a, true)], DoSubscribe(topic, b, true));
    StaysOpen(EMPTY, topic, a);
  }

  lemma StaysOpen(r: Registry, topic: TopicId, securities: seq<Security>)
    ensures Subscribe(r, topic, securities).closed == r.closed
  {
    hide CanonicalKey, RoutingKeys;
  }

  lemma RoutedOn(b: seq<Security>, q: Security)
    requires q in b && q.code != ""
    ensures NormaliseRoutingKey(q.code) in RoutingKeys(b)
  {
    hide NormaliseRoutingKey;
  }

  lemma SubscribedTogether(topic: TopicId, a: seq<Security>, b: seq<Security>)
    requires Mapped(topic) && WellFormed(a) && WellFormed(b) && CanonicalKey(topic, a) == CanonicalKey(topic, b)
    ensures var r := After([] + [DoSubscribe(topic, a, true)] + [DoSubscribe(topic, b, true)]);
            && r.subs == [Sub(topic, a, false), Sub(topic, b, false)]
            && r.byKey == Indexed(Indexed(map[], RoutingKeys(a), 0), RoutingKeys(a), 1)
  {
    hide CanonicalKey, RoutingKeys, Subscribe, Indexed;
    SubscribedBoth(topic, a, b);
    SubscribesAnew(EMPTY, topic, a);
    Coalesces(Subscribe(EMPTY, topic, a), topic, b);
  }

  lemma Coalesces(r: Registry, topic: TopicId, securities: seq<Security>)
    requires var key := CanonicalKey(topic, securities); key in r.entries && r.entries[key] < |r.heap|
    ensures var r', e := Subscribe(r, topic, securities), r.entries[CanonicalKey(topic, securities)];
            && r'.subs == r.subs + [Sub(topic, securities, false)]
            && r'.byKey == Indexed(r.byKey, RoutingKeys(r.heap[e].securities), |r.subs|)
  {
    hide CanonicalKey, RoutingKeys;
  }

  /** What goes wrong when a teardown meets another entry, for any instruments: a renewal that took
      hold of an entry, met a cancel and a new subscribe of the same key, and is then refused. The
      new subscription stays live and no entry has it. */
  lemma KillMayOrphan(topic: TopicId, securities: seq<Security>) returns (acts: seq<Action>)
    requires Mapped(topic) && WellFormed(securities)
    ensures Safe(After(acts)) && 0 < |After(acts).heap|
    ensures var r := Kill(After(acts), 0);
            !Inv(r) && |r.subs| == 2 && !r.subs[1].closed && r.subs[1].Key() !in r.entries
  {
    hide CanonicalKey, RoutingKeys;
    var sub, key := DoSubscribe(topic, securities, true), CanonicalKey(topic, securities);
    acts := [] + [sub] + [DoCancel(0)] + [sub];
    AfterOneMore([], sub);
    AfterOneMore([] + [sub], DoCancel(0));
    AfterOneMore([] + [sub] + [DoCancel(0)], sub);
    var r1 := Subscribe(EMPTY, topic, securities);
    SubscribesAnew(EMPTY, topic, securities);
    CancelsTheLast(r1, 0);
    var r2 := Cancel(r1, 0);
    SubscribesAnew(r2, topic, securities);
    assert After(acts) == Subscribe(r2, topic, securities);
    SafeThrice(topic, securities);
    KillKeepsInvIff(After(acts), 0);
    hide Inv;
  }

  lemma SafeThrice(topic: TopicId, securities: seq<Security>)
    requires Mapped(topic) && WellFormed(securities)
    ensures Safe(Subscribe(Cancel(Subscribe(EMPTY, topic, securities), 0), topic, securities))
  {
    hide CanonicalKey, RoutingKeys;
    var r1 := Subscribe(EMPTY, topic, securities);
    EmptyInv();
    SubscribesAnew(EMPTY, topic, securities);
    SubscribeKeepsInvIff(EMPTY, topic, securities);
    SubscribeKeepsGateway(EMPTY, topic, securities);
    CancelsTheLast(r1, 0);
    CancelKeepsInv(r1, 0);
    CancelKeepsGateway(r1, 0);
    hide Inv, GatewayAgrees, Subscribe, Cancel;
    var r2 := Cancel(r1, 0);
    SubscribeKeepsInvIff(r2, topic, securities);
    SubscribeKeepsGateway(r2, topic, securities);
  }

  lemma SubscribesAnew(r: Registry, topic: TopicId, securities: seq<Security>)
    requires CanonicalKey(topic, securities) !in r.entries
    ensures var r', key := Subscribe(r, topic, securities), CanonicalKey(topic, securities);
            && r'.entries == r.entries[key := |r.heap|]
            && r'.heap == r.heap + [Entry(topic, securities, [|r.subs|])]
            && r'.subs == r.subs + [Sub(topic, securities, false)] && r'.closed == r.closed
            && r'.byKey == Indexed(r.byKey, RoutingKeys(securities), |r.subs|)
  {
    hide CanonicalKey, RoutingKeys;
    var empty: seq<nat> := [];
    assert empty + [|r.subs|] == [|r.subs|];
    assert Subscribe(r, topic, securities).heap[|r.heap|] == Entry(topic, securities, [|r.subs|]);
  }

  lemma CancelsTheLast(r: Registry, s: nat)
    requires s < |r.subs| && !r.subs[s].closed && r.subs[s].Key() in r.entries
    requires var e := r.entries[r.subs[s].Key()]; e < |r.heap| && r.heap[e].subs == [s]
    ensures var r', key := Cancel(r, s), r.subs[s].Key();
            && r'.entries == r.entries - {key} && |r'.subs| == |r.subs| && r'.closed == r.closed
            && r'.heap == r.heap[r.entries[key] := r.heap[r.entries[key]].(subs := [])]
  {
    hide CanonicalKey, RoutingKeys;
    assert Without([s], s) == [];
  }

  lemma AfterOneMore(acts: seq<Action>, act: Action)
    ensures After(acts + [act]) == Apply(After(acts), act)
  {
    assert (acts + [act])[..|acts|] == acts;
  }
}
