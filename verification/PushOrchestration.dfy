/** The mutable orchestrator: the loops that keep the registry, each proved against the registry
    as a value. A Gateway call's answer is a parameter of the method that makes it. */
module PushOrchestration {
  import opened Prelude
  import opened Lists
  import opened PushKeys
  import opened PushRouting
  import opened PushRegistry

  /** A list of instruments is refused when empty, or when one is nil or has no code. */
  function Copied(request: seq<Option<Security>>): Option<seq<Security>> {
    if request != [] && (forall s :: s in request ==> s.Some? && s.value.code != "") then
      Some(seq(|request|, i requires 0 <= i < |request| => assert request[i] in request; request[i].value))
    else None
  }

  method CopyAndValidate(request: seq<Option<Security>>) returns (r: Option<seq<Security>>)
    ensures r == Copied(request)
    ensures r.Some? ==> WellFormed(r.value)
  {
    if |request| == 0 {
      return None;
    }
    var out := [];
    for i := 0 to |request|
      invariant |out| == i
      invariant forall j :: 0 <= j < i ==> request[j] == Some(out[j]) && out[j].code != ""
    {
      if request[i].None? || request[i].value.code == "" {
        assert request[i] in request;
        return None;
      }
      out := out + [request[i].value];
    }
    assert Copied(request).Some? && Copied(request).value == out;
    return Some(out);
  }

  class PushOrchestration {
    var entries: map<string, nat>
    var heap: seq<Entry>
    var byKey: map<string, seq<nat>>
    var subs: seq<Sub>
    var closed: bool
    var unrouted: nat
    ghost var calls: seq<GatewayCall>

    ghost function Value(): Registry
      reads this
    {
      Registry(entries, heap, byKey, subs, calls, closed)
    }

    /** Handles point at something. */
    ghost predicate Valid()
      reads this
    {
      && (forall key :: key in entries ==> entries[key] < |heap|)
      && (forall e :: 0 <= e < |heap| ==> forall s :: s in heap[e].subs ==> s < |subs|)
    }

    constructor ()
      ensures Valid() && Value() == EMPTY && unrouted == 0
    {
      entries, heap, byKey, subs, closed, unrouted, calls := map[], [], map[], [], false, 0, [];
    }

    /** Drop one subscription from one bucket, and the bucket with it when it was the last. */
    method RemoveFromIndex(key: string, sub: nat)
      modifies this`byKey
      ensures byKey == Unindexed(old(byKey), {key}, sub)
    {
      var bucket := if key in byKey then byKey[key] else [];
      bucket := Splice(bucket, sub);
      if |bucket| == 0 {
        byKey := byKey - {key};
      } else {
        byKey := byKey[key := bucket];
      }
    }

    method RemoveFromIndexUnder(securities: seq<Security>, sub: nat)
      modifies this`byKey
      ensures byKey == Unindexed(old(byKey), RoutingKeys(securities), sub)
    {
      var keys := SecurityKeys(securities);
      ghost var done: set<string> := {};
      for i := 0 to |keys|
        invariant done == set j | 0 <= j < i :: keys[j]
        invariant byKey == Unindexed(old(byKey), done, sub)
      {
        RemoveFromIndex(keys[i], sub);
        assert keys[i] !in done;
        done := done + {keys[i]};
      }
      assert done == RoutingKeys(securities);
    }

    method Attach(securities: seq<Security>, sub: nat)
      modifies this`byKey
      ensures byKey == Indexed(old(byKey), RoutingKeys(securities), sub)
    {
      var keys := SecurityKeys(securities);
      ghost var done: set<string> := {};
      for i := 0 to |keys|
        invariant done == set j | 0 <= j < i :: keys[j]
        invariant byKey == Indexed(old(byKey), done, sub)
      {
        assert keys[i] !in done;
        byKey := byKey[keys[i] := (if keys[i] in byKey then byKey[keys[i]] else []) + [sub]];
        done := done + {keys[i]};
      }
      assert done == RoutingKeys(securities);
    }

    /** Register a subscription. `accepted` is the Gateway's answer, which is only asked for when
        no entry has the key yet. */
    method Subscribe(topic: TopicId, request: seq<Option<Security>>, accepted: bool) returns (sub: Option<nat>)
      requires Valid()
      modifies this
      ensures Valid() && unrouted == old(unrouted)
      ensures sub.Some? <==> Copied(request).Some? && Admits(old(Value()), topic, Copied(request).value, accepted)
      ensures sub.Some? ==> sub.value == |old(subs)|
      ensures Value() == if sub.Some? then PushRegistry.Subscribe(old(Value()), topic, Copied(request).value)
                         else old(Value())
    {
      hide CanonicalKey, RoutingKeys, Copied;
      if !Mapped(topic) {
        return None;
      }
      var copied := CopyAndValidate(request);
      if copied.None? || closed {
        return None;
      }
      var securities := copied.value;
      var key := CanonicalKey(topic, securities);
      if key !in entries {
        if !accepted {
          return None;
        }
        calls := calls + [Subscribed(key)];
        heap := heap + [Entry(topic, securities, [])];
        entries := entries[key := |heap| - 1];
      }
      var e, id := entries[key], |subs|;
      assert e == EntryFor(old(Value()), key);
      subs := subs + [Sub(topic, securities, false)];
      heap := heap[e := heap[e].(subs := heap[e].subs + [id])];
      Attach(heap[e].securities, id);
      assert Value() == PushRegistry.Subscribe(old(Value()), topic, securities);
      return Some(id);
    }

    method ShutdownAll(doomed: seq<nat>)
      requires forall s :: s in doomed ==> s < |subs|
      modifies this`subs
      ensures subs == Shutdown(old(subs), doomed)
    {
      for i := 0 to |doomed|
        invariant subs == Shutdown(old(subs), doomed[..i])
      {
        assert doomed[i] in doomed;
        assert doomed[..i + 1] == doomed[..i] + [doomed[i]];
        subs := subs[doomed[i] := subs[doomed[i]].(closed := true)];
      }
      assert doomed[..|doomed|] == doomed;
    }

    /** Release a subscription; the Gateway hears of it only from the last holder of the key. */
    method Cancel(s: nat)
      requires Valid() && s < |subs|
      modifies this
      ensures Valid() && Value() == PushRegistry.Cancel(old(Value()), s) && unrouted == old(unrouted)
    {
      hide CanonicalKey, RoutingKeys;
      if subs[s].closed {
        return;
      }
      var key := CanonicalKey(subs[s].topic, subs[s].securities);
      if key in entries {
        var e := entries[key];
        var left := Splice(heap[e].subs, s);
        assert forall x :: x in left ==> x in heap[e].subs by { WithoutSubset(heap[e].subs, s); }
        heap := heap[e := heap[e].(subs := left)];
        if |left| == 0 {
          entries := entries - {key};
          calls := calls + [Unsubscribed(heap[e].Key())];
        }
        RemoveFromIndexUnder(heap[e].securities, s);
      }
      ShutdownAll([s]);
    }

    /** Tear an entry down after the Gateway refused to renew it. */
    method KillEntry(e: nat)
      requires Valid() && e < |heap|
      modifies this
      ensures Valid() && Value() == Kill(old(Value()), e) && unrouted == old(unrouted)
    {
      hide CanonicalKey, RoutingKeys;
      var doomed := heap[e].subs;
      for i := 0 to |doomed|
        invariant unchanged(this`entries) && unchanged(this`heap) && unchanged(this`subs)
        invariant unchanged(this`calls) && unchanged(this`closed) && unchanged(this`unrouted)
        invariant byKey == UnindexedAll(old(byKey), subs, doomed[..i])
      {
        assert doomed[i] in doomed;
        assert doomed[..i + 1][..i] == doomed[..i];
        RemoveFromIndexUnder(subs[doomed[i]].securities, doomed[i]);
      }
      assert doomed[..|doomed|] == doomed;
      entries := entries - {heap[e].Key()};
      ShutdownAll(doomed);
      calls := calls + [Unsubscribed(heap[e].Key())];
    }

    /** Drain the registry: collect every held subscription, forget the maps, shut them all. */
    method Close()
      requires Valid()
      modifies this
      ensures Valid() && unrouted == old(unrouted)
      ensures Value() == PushRegistry.Close(old(Value()))
    {
      closed := true;
      var markets: seq<nat> := [];
      var left := entries.Keys;
      while left != {}
        invariant left <= entries.Keys
        invariant forall s :: s in markets <==>
                    exists key :: key in entries && key !in left && s in heap[entries[key]].subs
      {
        var key :| key in left;
        markets := markets + heap[entries[key]].subs;
        left := left - {key};
      }
      assert forall s :: s in markets <==> HeldByAnEntry(old(Value()), s);
      entries, byKey := map[], map[];
      ShutdownAll(markets);
      assert subs == PushRegistry.Close(old(Value())).subs;
    }

    /** Collect each subscription once, however many of the update's keys lead to it, and count an
        update that leads to none. */
    method DispatchMarket(id: string, securityCode: string) returns (targets: seq<nat>)
      modifies this`unrouted
      ensures Distinct(targets)
      ensures forall s :: s in targets <==>
                || (id != "" && s in Bucket(byKey, NormaliseRoutingKey(id)))
                || (securityCode != "" && s in Bucket(byKey, NormaliseRoutingKey(securityCode)))
      ensures unrouted == if targets == [] then old(unrouted) + 1 else old(unrouted)
    {
      var keys := UpdateRoutingKeys(id, securityCode);
      targets := [];
      var seen: set<nat> := {};
      for i := 0 to |keys|
        invariant Distinct(targets)
        invariant forall s :: s in targets <==> s in seen
        invariant forall s :: s in seen <==> exists j :: 0 <= j < i && s in Bucket(byKey, keys[j])
      {
        var bucket := if keys[i] in byKey then byKey[keys[i]] else [];
        ghost var before := seen;
        for b := 0 to |bucket|
          invariant Distinct(targets)
          invariant forall s :: s in targets <==> s in seen
          invariant forall s :: s in seen <==> s in before || s in bucket[..b]
        {
          assert bucket[..b + 1] == bucket[..b] + [bucket[b]];
          if bucket[b] in seen {
            continue;
          }
          seen := seen + {bucket[b]};
          assert forall j :: 0 <= j < |targets| ==> targets[j] in targets;
          targets := targets + [bucket[b]];
        }
        assert bucket[..|bucket|] == bucket;
      }
      assert forall s, k :: k in keys && s in Bucket(byKey, k) ==> s in seen;
      assert forall j :: 0 <= j < |keys| ==> keys[j] in keys;
      if |targets| == 0 {
        unrouted := unrouted + 1;
      }
    }
  }
}
