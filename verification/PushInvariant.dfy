/** What every run of subscribe, cancel, kill and close keeps. */
module PushInvariant {
  import opened Lists
  import opened PushKeys
  import opened PushRouting
  import opened PushRegistry

  /** A registered entry is stored under its own canonical key and holds at least one
      subscription, each once, each live, each with that key. */
  ghost predicate EntryOk(r: Registry, key: string)
    requires key in r.entries
  {
    var e := r.entries[key];
    && e < |r.heap|
    && r.heap[e].Key() == key
    && r.heap[e].subs != []
    && Distinct(r.heap[e].subs)
    && (forall s :: s in r.heap[e].subs ==> s < |r.subs| && !r.subs[s].closed && r.subs[s].Key() == key)
  }

  /** An entry that is no longer registered holds no live subscription. */
  ghost predicate HeapOk(r: Registry, e: nat)
    requires e < |r.heap|
  {
    var entry := r.heap[e];
    && (forall s :: s in entry.subs ==> s < |r.subs|)
    && (Registered(r, e) || forall s :: s in entry.subs ==> s < |r.subs| && r.subs[s].closed)
  }

  predicate Registered(r: Registry, e: nat)
    requires e < |r.heap|
  {
    r.heap[e].Key() in r.entries && r.entries[r.heap[e].Key()] == e
  }

  /** A live subscription is in the entry of its key, whose instruments route like its own. */
  ghost predicate SubOk(r: Registry, s: nat)
    requires s < |r.subs|
  {
    var sub := r.subs[s];
    !sub.closed ==>
      && sub.Key() in r.entries
      && r.entries[sub.Key()] < |r.heap|
      && s in r.heap[r.entries[sub.Key()]].subs
      && RoutingKeys(r.heap[r.entries[sub.Key()]].securities) == RoutingKeys(sub.securities)
  }

  predicate Wants(r: Registry, s: nat, k: string) {
    s < |r.subs| && !r.subs[s].closed && k in RoutingKeys(r.subs[s].securities)
  }

  /** A routing bucket holds exactly the live subscriptions that asked for its key, each once,
      and is not kept when empty. */
  ghost predicate BucketOk(r: Registry, k: string) {
    && (k in r.byKey ==> r.byKey[k] != [])
    && Distinct(Bucket(r.byKey, k))
    && (forall s :: s in Bucket(r.byKey, k) <==> Wants(r, s, k))
  }

  ghost predicate Inv(r: Registry) {
    && (forall key {:trigger EntryOk(r, key)} :: key in r.entries ==> EntryOk(r, key))
    && (forall e {:trigger HeapOk(r, e)} :: 0 <= e < |r.heap| ==> HeapOk(r, e))
    && (forall s {:trigger SubOk(r, s)} :: 0 <= s < |r.subs| ==> SubOk(r, s))
    && (forall k {:trigger BucketOk(r, k)} :: BucketOk(r, k))
  }

  lemma EmptyInv()
    ensures Inv(EMPTY)
  {
    forall k ensures BucketOk(EMPTY, k) {
    }
  }

  /** Whether the entry a subscription would join, if its key has one, was created for instruments
      that route like its own. */
  predicate Agrees(r: Registry, topic: TopicId, securities: seq<Security>) {
    var key := CanonicalKey(topic, securities);
    key in r.entries && r.entries[key] < |r.heap| ==>
      RoutingKeys(r.heap[r.entries[key]].securities) == RoutingKeys(securities)
  }

  /** A holder that joins an entry is indexed under that entry's instruments. */
  lemma SubscribeRoutes(r: Registry, topic: TopicId, securities: seq<Security>)
    requires Inv(r)
    ensures var r', key := Subscribe(r, topic, securities), CanonicalKey(topic, securities);
            && r'.subs == r.subs + [Sub(topic, securities, false)]
            && (key in r.entries ==> r.entries[key] < |r.heap|)
            && r'.byKey ==
               Indexed(r.byKey,
                       RoutingKeys(if key in r.entries then r.heap[r.entries[key]].securities else securities),
                       |r.subs|)
  {
    hide CanonicalKey, RoutingKeys;
    var key := CanonicalKey(topic, securities);
    assert key in r.entries ==> EntryOk(r, key);
  }

  lemma IndexedKeepsBuckets(r: Registry, r': Registry, sub: Sub)
    requires !sub.closed && r'.subs == r.subs + [sub]
    requires r'.byKey == Indexed(r.byKey, RoutingKeys(sub.securities), |r.subs|)
    requires forall k {:trigger BucketOk(r, k)} :: BucketOk(r, k)
    ensures forall k {:trigger BucketOk(r', k)} :: BucketOk(r', k)
  {
    forall k ensures BucketOk(r', k) {
      assert BucketOk(r, k);
      assert forall s :: s in Bucket(r.byKey, k) ==> Wants(r, s, k);
      DistinctAppend(Bucket(r.byKey, k), |r.subs|);
      assert forall s {:trigger Wants(r', s, k)} :: s != |r.subs| ==> (Wants(r', s, k) <==> Wants(r, s, k));
    }
  }

  lemma SubscribeKeepsEntry(r: Registry, topic: TopicId, securities: seq<Security>, key: string)
    requires Inv(r) && key in Subscribe(r, topic, securities).entries
    ensures EntryOk(Subscribe(r, topic, securities), key)
  {
    hide CanonicalKey, RoutingKeys;
    var mine := CanonicalKey(topic, securities);
    assert mine in r.entries ==> EntryOk(r, mine);
    if key in r.entries {
      assert EntryOk(r, key);
      if key == mine {
        DistinctAppend(r.heap[r.entries[key]].subs, |r.subs|);
      }
    }
  }

  lemma SubscribeKeepsHeap(r: Registry, topic: TopicId, securities: seq<Security>, e: nat)
    requires Inv(r) && e < |Subscribe(r, topic, securities).heap|
    ensures HeapOk(Subscribe(r, topic, securities), e)
  {
    hide CanonicalKey, RoutingKeys;
    var mine := CanonicalKey(topic, securities);
    assert mine in r.entries ==> EntryOk(r, mine);
    assert e < |r.heap| ==> HeapOk(r, e);
  }

  lemma SubscribeKeepsSub(r: Registry, topic: TopicId, securities: seq<Security>, s: nat)
    requires Inv(r) && Agrees(r, topic, securities) && s < |Subscribe(r, topic, securities).subs|
    ensures SubOk(Subscribe(r, topic, securities), s)
  {
    hide CanonicalKey, RoutingKeys;
    var mine := CanonicalKey(topic, securities);
    assert mine in r.entries ==> EntryOk(r, mine);
    assert s < |r.subs| ==> SubOk(r, s);
  }

  /** Otherwise some bucket lacks the new subscription, or holds it although it never asked. */
  lemma DisagreementShows(r: Registry, topic: TopicId, securities: seq<Security>) returns (k: string)
    requires Inv(r) && !Agrees(r, topic, securities)
    ensures !BucketOk(Subscribe(r, topic, securities), k)
  {
    hide CanonicalKey, RoutingKeys;
    var key, r' := CanonicalKey(topic, securities), Subscribe(r, topic, securities);
    SubscribeRoutes(r, topic, securities);
    var theirs, mine := RoutingKeys(r.heap[r.entries[key]].securities), RoutingKeys(securities);
    k :| (k in theirs) != (k in mine);
    var n := |r.subs|;
    assert BucketOk(r, k);
    assert n !in Bucket(r.byKey, k) by {
      assert n in Bucket(r.byKey, k) ==> Wants(r, n, k);
    }
    assert n in Bucket(r'.byKey, k) <==> k in theirs;
    assert Wants(r', n, k) <==> k in mine;
  }

  /** Subscribing, coalesced or not, keeps registry, index and liveness in agreement if and only if
      the entry it joins routes like its own instruments. */
  lemma SubscribeKeepsInvIff(r: Registry, topic: TopicId, securities: seq<Security>)
    requires Inv(r)
    ensures Inv(Subscribe(r, topic, securities)) <==> Agrees(r, topic, securities)
    ensures (forall k {:trigger BucketOk(Subscribe(r, topic, securities), k)} ::
               BucketOk(Subscribe(r, topic, securities), k)) <==> Agrees(r, topic, securities)
  {
    var r' := Subscribe(r, topic, securities);
    if Agrees(r, topic, securities) {
      SubscribeRoutes(r, topic, securities);
      IndexedKeepsBuckets(r, r', Sub(topic, securities, false));
      hide CanonicalKey, RoutingKeys, Subscribe;
      forall key | key in r'.entries ensures EntryOk(r', key) { SubscribeKeepsEntry(r, topic, securities, key); }
      forall e | 0 <= e < |r'.heap| ensures HeapOk(r', e) { SubscribeKeepsHeap(r, topic, securities, e); }
      forall s | 0 <= s < |r'.subs| ensures SubOk(r', s) { SubscribeKeepsSub(r, topic, securities, s); }
    } else {
      var k := DisagreementShows(r, topic, securities);
    }
  }

  // ---- cancelling ----

  /** Removing one subscription from every bucket that can hold it. */
  lemma UnindexedBuckets(byKey: map<string, seq<nat>>, keys: set<string>, s: nat, k: string)
    requires Distinct(Bucket(byKey, k)) && (k in byKey ==> byKey[k] != [])
    requires s in Bucket(byKey, k) ==> k in keys
    ensures var byKey' := Unindexed(byKey, keys, s);
            && Distinct(Bucket(byKey', k))
            && (k in byKey' ==> byKey'[k] != [])
            && (forall x :: x in Bucket(byKey', k) <==> x in Bucket(byKey, k) && x != s)
  {
    WithoutMembers(Bucket(byKey, k), s);
  }

  /** What a live subscription's key leads to. */
  lemma EntryOf(r: Registry, s: nat)
    requires Inv(r) && s < |r.subs| && !r.subs[s].closed
    ensures r.subs[s].Key() in r.entries
    ensures var e := r.entries[r.subs[s].Key()];
            && e < |r.heap| && s in r.heap[e].subs
            && RoutingKeys(r.heap[e].securities) == RoutingKeys(r.subs[s].securities)
            && r.heap[e].Key() == r.subs[s].Key()
  {
    var key := r.subs[s].Key();
    assert SubOk(r, s);
    assert EntryOk(r, key);
  }

  lemma CancelKeepsBucket(r: Registry, s: nat, k: string)
    requires Inv(r) && s < |r.subs| && !r.subs[s].closed
    ensures BucketOk(Cancel(r, s), k)
  {
    hide CanonicalKey, RoutingKeys;
    var r' := Cancel(r, s);
    EntryOf(r, s);
    assert BucketOk(r, k);
    assert s in Bucket(r.byKey, k) ==> Wants(r, s, k);
    UnindexedBuckets(r.byKey, RoutingKeys(r.subs[s].securities), s, k);
    assert forall x {:trigger Wants(r', x, k)} :: Wants(r', x, k) <==> Wants(r, x, k) && x != s;
  }

  lemma CancelKeepsEntry(r: Registry, s: nat, key: string)
    requires Inv(r) && s < |r.subs| && !r.subs[s].closed && key in Cancel(r, s).entries
    ensures EntryOk(Cancel(r, s), key)
  {
    hide CanonicalKey, RoutingKeys;
    EntryOf(r, s);
    assert EntryOk(r, key);
    WithoutMembers(r.heap[r.entries[key]].subs, s);
  }

  lemma CancelKeepsHeap(r: Registry, s: nat, e: nat)
    requires Inv(r) && s < |r.subs| && !r.subs[s].closed && e < |r.heap|
    ensures HeapOk(Cancel(r, s), e)
  {
    hide CanonicalKey, RoutingKeys;
    EntryOf(r, s);
    assert EntryOk(r, r.subs[s].Key());
    assert HeapOk(r, e);
    WithoutMembers(r.heap[r.entries[r.subs[s].Key()]].subs, s);
  }

  lemma CancelKeepsSub(r: Registry, s: nat, t: nat)
    requires Inv(r) && s < |r.subs| && !r.subs[s].closed && t < |r.subs|
    ensures SubOk(Cancel(r, s), t)
  {
    hide CanonicalKey, RoutingKeys;
    EntryOf(r, s);
    assert EntryOk(r, r.subs[s].Key());
    assert SubOk(r, t);
    WithoutMembers(r.heap[r.entries[r.subs[s].Key()]].subs, s);
  }

  lemma CancelKeepsInv(r: Registry, s: nat)
    requires Inv(r) && s < |r.subs|
    ensures Inv(Cancel(r, s))
  {
    if !r.subs[s].closed {
      hide CanonicalKey, RoutingKeys;
      var r' := Cancel(r, s);
      EntryOf(r, s);
      forall k ensures BucketOk(r', k) { CancelKeepsBucket(r, s, k); }
      forall key | key in r'.entries ensures EntryOk(r', key) { CancelKeepsEntry(r, s, key); }
      forall e | 0 <= e < |r'.heap| ensures HeapOk(r', e) { CancelKeepsHeap(r, s, e); }
      forall t | 0 <= t < |r'.subs| ensures SubOk(r', t) { CancelKeepsSub(r, s, t); }
    }
  }

  // ---- killing ----

  /** Removing many subscriptions, each under its own instruments. */
  lemma {:induction false} UnindexedAllBuckets(
    byKey: map<string, seq<nat>>, subs: seq<Sub>, doomed: seq<nat>, k: string)
    requires Distinct(Bucket(byKey, k)) && (k in byKey ==> byKey[k] != [])
    requires forall s :: s in Bucket(byKey, k) ==> s < |subs| && k in RoutingKeys(subs[s].securities)
    ensures var byKey' := UnindexedAll(byKey, subs, doomed);
            && Distinct(Bucket(byKey', k))
            && (k in byKey' ==> byKey'[k] != [])
            && (forall x :: x in Bucket(byKey', k) <==> x in Bucket(byKey, k) && x !in doomed)
  {
    hide RoutingKeys;
    if doomed != [] {
      var s, init := doomed[|doomed| - 1], doomed[..|doomed| - 1];
      UnindexedAllBuckets(byKey, subs, init, k);
      assert doomed == init + [s];
      if s < |subs| {
        UnindexedBuckets(UnindexedAll(byKey, subs, init), RoutingKeys(subs[s].securities), s, k);
      }
    }
  }

  lemma KillKeepsBucket(r: Registry, e: nat, k: string)
    requires Inv(r) && e < |r.heap|
    ensures BucketOk(Kill(r, e), k)
  {
    hide CanonicalKey, RoutingKeys;
    var r' := Kill(r, e);
    assert BucketOk(r, k);
    assert forall s :: s in Bucket(r.byKey, k) ==> Wants(r, s, k);
    UnindexedAllBuckets(r.byKey, r.subs, r.heap[e].subs, k);
    assert forall x {:trigger Wants(r', x, k)} :: Wants(r', x, k) <==> Wants(r, x, k) && x !in r.heap[e].subs;
  }

  /** Whether the entry being torn down is the one its key now has, if any. */
  predicate KillsItsOwn(r: Registry, e: nat)
    requires e < |r.heap|
  {
    r.heap[e].Key() in r.entries ==> r.entries[r.heap[e].Key()] == e
  }

  lemma KillKeepsRest(r: Registry, e: nat)
    requires Inv(r) && e < |r.heap| && KillsItsOwn(r, e)
    ensures var r' := Kill(r, e);
            && (forall key {:trigger EntryOk(r', key)} :: key in r'.entries ==> EntryOk(r', key))
            && (forall f {:trigger HeapOk(r', f)} :: 0 <= f < |r'.heap| ==> HeapOk(r', f))
            && (forall s {:trigger SubOk(r', s)} :: 0 <= s < |r'.subs| ==> SubOk(r', s))
  {
    hide CanonicalKey, RoutingKeys;
    var r' := Kill(r, e);
    assert HeapOk(r, e);
    assert r.heap[e].Key() in r.entries ==> EntryOk(r, r.heap[e].Key());
    forall key | key in r'.entries ensures EntryOk(r', key) {
      assert EntryOk(r, key);
    }
    forall f | 0 <= f < |r'.heap| ensures HeapOk(r', f) {
      assert HeapOk(r, f);
    }
    forall s | 0 <= s < |r'.subs| ensures SubOk(r', s) {
      assert SubOk(r, s);
    }
  }

  /** Tearing down an entry keeps the invariant exactly when no other entry has taken its key: an
      entry re-created under the same key would lose its registration and keep its holders. */
  lemma KillKeepsInvIff(r: Registry, e: nat)
    requires Inv(r) && e < |r.heap|
    ensures Inv(Kill(r, e)) <==> KillsItsOwn(r, e)
  {
    hide CanonicalKey, RoutingKeys;
    var r' := Kill(r, e);
    if KillsItsOwn(r, e) {
      KillKeepsRest(r, e);
      forall k ensures BucketOk(r', k) { KillKeepsBucket(r, e, k); }
    } else {
      var key := r.heap[e].Key();
      assert EntryOk(r, key) && HeapOk(r, e);
      var s := r.heap[r.entries[key]].subs[0];
      assert s in r.heap[r.entries[key]].subs;
      assert !r'.subs[s].closed;
      assert !SubOk(r', s);
    }
  }
}
