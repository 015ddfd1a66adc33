/** The coalescing registry of market subscriptions as a value: which entry each canonical key
    has, which subscriptions each entry and each routing bucket holds, and which calls were made
    to the Gateway. Entries and subscriptions are shared objects in the program; here each lives
    in an arena and its position is its identity. */
module PushRegistry {
  import opened Lists
  import opened PushKeys
  import opened PushRouting

  datatype Sub = Sub(topic: TopicId, securities: seq<Security>, closed: bool) {
    function Key(): string {
      CanonicalKey(topic, securities)
    }
  }

  datatype Entry = Entry(topic: TopicId, securities: seq<Security>, subs: seq<nat>) {
    function Key(): string {
      CanonicalKey(topic, securities)
    }
  }

  datatype GatewayCall = Subscribed(key: string) | Unsubscribed(key: string)

  datatype Registry = Registry(
    entries: map<string, nat>,
    heap: seq<Entry>,
    byKey: map<string, seq<nat>>,
    subs: seq<Sub>,
    calls: seq<GatewayCall>,
    closed: bool
  )

  const EMPTY := Registry(map[], [], map[], [], [], false)

  /** The topics that deliver a payload this SDK maps. */
  predicate Mapped(topic: TopicId) {
    topic in {11, 35, 14, 27, 28, 37, 16, 17, 25, 26, 36}
  }

  predicate WellFormed(securities: seq<Security>) {
    securities != [] && forall s :: s in securities ==> s.code != ""
  }

  // ---- the routing index ----

  function Bucket(byKey: map<string, seq<nat>>, k: string): seq<nat> {
    if k in byKey then byKey[k] else []
  }

  function Indexed(byKey: map<string, seq<nat>>, keys: set<string>, sub: nat): map<string, seq<nat>> {
    map k | k in byKey.Keys + keys :: if k in keys then Bucket(byKey, k) + [sub] else byKey[k]
  }

  function Unindexed(byKey: map<string, seq<nat>>, keys: set<string>, sub: nat): map<string, seq<nat>> {
    map k | k in byKey && (k in keys ==> Without(byKey[k], sub) != []) ::
      if k in keys then Without(byKey[k], sub) else byKey[k]
  }

  /** Each of `doomed` removed from the index under its own instruments. */
  function UnindexedAll(byKey: map<string, seq<nat>>, subs: seq<Sub>, doomed: seq<nat>): map<string, seq<nat>> {
    if doomed == [] then byKey
    else
      var s := doomed[|doomed| - 1];
      var rest := UnindexedAll(byKey, subs, doomed[..|doomed| - 1]);
      if s < |subs| then Unindexed(rest, RoutingKeys(subs[s].securities), s) else rest
  }

  // ---- the operations ----

  /** Whether a subscription is admitted; `accepted` is what the Gateway would answer. */
  predicate Admits(r: Registry, topic: TopicId, securities: seq<Security>, accepted: bool) {
    && !r.closed && Mapped(topic) && WellFormed(securities)
    && (CanonicalKey(topic, securities) in r.entries || accepted)
  }

  function EntryFor(r: Registry, key: string): nat {
    if key in r.entries then r.entries[key] else |r.heap|
  }

  function Subscribe(r: Registry, topic: TopicId, securities: seq<Security>): Registry {
    var key := CanonicalKey(topic, securities);
    var e := EntryFor(r, key);
    var heap := if key in r.entries then r.heap else r.heap + [Entry(topic, securities, [])];
    if e >= |heap| then r
    else
      Registry(r.entries[key := e],
               heap[e := heap[e].(subs := heap[e].subs + [|r.subs|])],
               Indexed(r.byKey, RoutingKeys(heap[e].securities), |r.subs|),
               r.subs + [Sub(topic, securities, false)],
               if key in r.entries then r.calls else r.calls + [Subscribed(key)],
               r.closed)
  }

  /** Drop a subscription from its entry and from the index; the last one takes the entry, and
      the Gateway's subscription, with it. */
  function Detach(r: Registry, s: nat): Registry
    requires s < |r.subs|
  {
    var key := r.subs[s].Key();
    if key !in r.entries || r.entries[key] >= |r.heap| then r
    else
      var e := r.entries[key];
      var left := Without(r.heap[e].subs, s);
      r.(entries := if left == [] then r.entries - {key} else r.entries,
         heap := r.heap[e := r.heap[e].(subs := left)],
         byKey := Unindexed(r.byKey, RoutingKeys(r.heap[e].securities), s),
         calls := if left == [] then r.calls + [Unsubscribed(r.heap[e].Key())] else r.calls)
  }

  function Shutdown(subs: seq<Sub>, doomed: seq<nat>): (r: seq<Sub>)
    ensures |r| == |subs|
    ensures forall i {:trigger r[i]} :: 0 <= i < |subs| ==> r[i] == subs[i].(closed := subs[i].closed || i in doomed)
  {
    seq(|subs|, i requires 0 <= i < |subs| => subs[i].(closed := subs[i].closed || i in doomed))
  }

  function Cancel(r: Registry, s: nat): Registry
    requires s < |r.subs|
  {
    if r.subs[s].closed then r
    else var r' := Detach(r, s); r'.(subs := Shutdown(r.subs, [s]))
  }

  /** Tear down an entry whose re-subscribe the Gateway refused. Whatever entry now has its key
      goes, whether or not it is the one being torn down. */
  function Kill(r: Registry, e: nat): Registry
    requires e < |r.heap|
  {
    var entry := r.heap[e];
    r.(entries := r.entries - {entry.Key()},
       byKey := UnindexedAll(r.byKey, r.subs, entry.subs),
       subs := Shutdown(r.subs, entry.subs),
       calls := r.calls + [Unsubscribed(entry.Key())])
  }

  /** Every subscription some entry holds. */
  ghost predicate HeldByAnEntry(r: Registry, s: nat) {
    exists key :: key in r.entries && r.entries[key] < |r.heap| && s in r.heap[r.entries[key]].subs
  }

  /** Close: nothing stays registered, and every held subscription is shut. The Gateway is told
      nothing. */
  ghost function Close(r: Registry): (r': Registry)
    ensures |r'.subs| == |r.subs|
    ensures forall s {:trigger r'.subs[s]} :: 0 <= s < |r.subs| ==>
              r'.subs[s] == r.subs[s].(closed := r.subs[s].closed || HeldByAnEntry(r, s))
  {
    Registry(map[], r.heap, map[],
             seq(|r.subs|, s requires 0 <= s < |r.subs| =>
               r.subs[s].(closed := r.subs[s].closed || HeldByAnEntry(r, s))),
             r.calls, true)
  }
}
