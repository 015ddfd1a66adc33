/** Lossy bounded channels: the drop-oldest enqueue of a subscription and of the client error
    stream, with a receiver that may take values between any two of the sender's selects. */
module PushDelivery {
  /** A bounded channel, with what was ever offered to it, what its receiver has taken, and which
      offers (`kept`, by position) are still in it or were taken. */
  datatype Channel<T> = Channel(cap: nat, queue: seq<T>, received: seq<T>, offered: seq<T>, kept: seq<nat>) {

    /** Everything that got through so far, in the order the receiver sees it. */
    function Through(): seq<T> {
      received + queue
    }

    /** What got through is offered values, in the order they were offered. */
    ghost predicate Ordered() {
      && cap >= 1 && |queue| <= cap
      && |kept| == |Through()| <= |offered|
      && (forall j :: 0 <= j < |kept| ==> kept[j] < |offered| && Through()[j] == offered[kept[j]])
      && (forall i, j :: 0 <= i < j < |kept| ==> kept[i] < kept[j])
      && Recent()
    }

    /** What is queued is the most recent offers: only the oldest are ever thrown away. */
    ghost predicate Recent() {
      |queue| <= |offered| && queue == offered[|offered| - |queue|..]
    }

    /** And it ends with the newest. */
    ghost predicate Valid() {
      && Ordered()
      && (offered != [] ==> kept != [] && kept[|kept| - 1] == |offered| - 1)
    }

    /** The receiver takes up to `n` values. */
    function Drain(n: nat): Channel<T> {
      var m := if n < |queue| then n else |queue|;
      this.(queue := queue[m..], received := received + queue[..m])
    }

    /** The sender takes the oldest value out, if there is one, and throws it away. */
    function Evict(): Channel<T> {
      if queue == [] then this
      else
        this.(queue := queue[1..],
              kept := if |received| < |kept| then kept[..|received|] + kept[|received| + 1..] else kept)
    }

    predicate Full() {
      |queue| >= cap
    }

    /** A successful send. */
    function Push(v: T): Channel<T> {
      this.(queue := queue + [v], offered := offered + [v], kept := kept + [|offered|])
    }

    /** Send, or make room and send again. The receiver takes `d1` values before the eviction and
        `d2` before the second send; a second send that finds no room would lose the value. */
    function Offer(v: T, d1: nat, d2: nat): Channel<T> {
      if !Full() then Push(v)
      else
        var c := Drain(d1).Evict().Drain(d2);
        if !c.Full() then c.Push(v) else c.(offered := c.offered + [v])
    }

    /** Whether offering now throws an older value away. */
    predicate Evicts(d1: nat) {
      Full() && Drain(d1).queue != []
    }

    function Lost(): int {
      |offered| - |Through()|
    }
  }

  lemma DrainKeepsOrdered<T>(c: Channel<T>, n: nat)
    requires c.Ordered()
    ensures c.Drain(n).Ordered()
    ensures c.Drain(n).Through() == c.Through() && |c.Drain(n).queue| <= |c.queue|
  {
  }

  lemma EvictKeepsOrdered<T>(c: Channel<T>)
    requires c.Ordered()
    ensures c.Evict().Ordered()
    ensures |c.Evict().Through()| == |c.Through()| - if c.queue != [] then 1 else 0
    ensures |c.Evict().queue| < c.cap
  {
    if c.queue != [] {
      var n := |c.received|;
      assert c.Evict().Through() == c.Through()[..n] + c.Through()[n + 1..];
    }
  }

  lemma PushMakesValid<T>(c: Channel<T>, v: T)
    requires c.Ordered() && !c.Full()
    ensures c.Push(v).Valid() && |c.Push(v).Through()| == |c.Through()| + 1
  {
    assert c.Push(v).Through() == c.Through() + [v];
  }

  lemma DrainKeepsValid<T>(c: Channel<T>, n: nat)
    requires c.Valid()
    ensures c.Drain(n).Valid() && c.Drain(n).Through() == c.Through() && c.Drain(n).offered == c.offered
    ensures c.Drain(n).Lost() == c.Lost()
  {
    DrainKeepsOrdered(c, n);
  }

  /** Making room always succeeds, so the second send does too: the arm that would lose the new
      value is unreachable. */
  lemma RoomIsMade<T>(c: Channel<T>, d1: nat, d2: nat)
    requires c.Ordered()
    ensures var e := c.Drain(d1).Evict().Drain(d2);
            && !e.Full() && e.Ordered() && e.offered == c.offered
            && |e.Through()| == |c.Through()| - if c.Drain(d1).queue != [] then 1 else 0
  {
    DrainKeepsOrdered(c, d1);
    EvictKeepsOrdered(c.Drain(d1));
    DrainKeepsOrdered(c.Drain(d1).Evict(), d2);
  }

  /** Offering keeps the channel valid, and loses at most one value: one that is still there when the
      sender finds the channel holding all it can. */
  lemma OfferKeepsValid<T>(c: Channel<T>, v: T, d1: nat, d2: nat)
    requires c.Valid()
    ensures c.Offer(v, d1, d2).Valid()
    ensures c.Offer(v, d1, d2).offered == c.offered + [v]
    ensures c.Evicts(d1) <==> |c.queue| == c.cap && d1 < c.cap
    ensures c.Offer(v, d1, d2).Lost() == c.Lost() + if |c.queue| == c.cap && d1 < c.cap then 1 else 0
  {
    if c.Full() {
      RoomIsMade(c, d1, d2);
      PushMakesValid(c.Drain(d1).Evict().Drain(d2), v);
    } else {
      PushMakesValid(c, v);
    }
  }
}
