/** A market subscription's delivery and the client error stream, over lossy channels. */
module PushFeed {
  import opened Prelude
  import opened PushDelivery

  /** A delivered update; an unstamped one carries no wire time. */
  datatype Update = Update(stamp: Option<int>, body: string)

  // ---- out-of-order accounting ----

  /** The newest wire time among `us`. */
  function Newest(us: seq<Update>): (r: Option<int>)
    ensures r.Some? ==> exists i :: 0 <= i < |us| && us[i].stamp == r
    ensures forall i :: 0 <= i < |us| && us[i].stamp.Some? ==> r.Some? && us[i].stamp.value <= r.value
  {
    if us == [] then None
    else
      var u, before := us[|us| - 1], Newest(us[..|us| - 1]);
      if u.stamp.None? then before
      else if before.Some? && u.stamp.value < before.value then before
      else u.stamp
  }

  /** Whether `u` is stamped earlier than one of `us`. */
  ghost predicate Late(us: seq<Update>, u: Update) {
    u.stamp.Some? && exists i :: 0 <= i < |us| && us[i].stamp.Some? && u.stamp.value < us[i].stamp.value
  }

  /** How many of `us` are stamped earlier than one before them. */
  ghost function LateCount(us: seq<Update>): nat {
    if us == [] then 0
    else
      var init := us[..|us| - 1];
      LateCount(init) + if Late(init, us[|us| - 1]) then 1 else 0
  }

  // ---- a subscription ----

  datatype Feed = Feed(channel: Channel<Update>, closed: bool, dropped: nat, outOfOrder: nat, lastWire: Option<int>)

  predicate IsLate(f: Feed, u: Update) {
    u.stamp.Some? && f.lastWire.Some? && u.stamp.value < f.lastWire.value
  }

  function Accept(f: Feed, u: Update, d1: nat, d2: nat): Feed {
    if f.closed then f
    else
      Feed(f.channel.Offer(u, d1, d2), false,
           f.dropped + (if f.channel.Full() then 1 else 0),
           f.outOfOrder + (if IsLate(f, u) then 1 else 0),
           if u.stamp.Some? && !IsLate(f, u) then u.stamp else f.lastWire)
  }

  datatype Action = Delivered(u: Update, d1: nat, d2: nat) | Received(n: nat) | ShutDown

  function Apply(f: Feed, act: Action): Feed {
    match act
    case Delivered(u, d1, d2) => Accept(f, u, d1, d2)
    case Received(n) => f.(channel := f.channel.Drain(n))
    case ShutDown => f.(closed := true)
  }

  function NewFeed(buffer: nat): Feed {
    Feed(Channel(buffer, [], [], [], []), false, 0, 0, None)
  }

  function After(buffer: nat, acts: seq<Action>): Feed {
    if acts == [] then NewFeed(buffer) else Apply(After(buffer, acts[..|acts| - 1]), acts[|acts| - 1])
  }

  ghost predicate FeedOk(f: Feed) {
    && f.channel.Valid()
    && f.channel.Lost() <= f.dropped
    && f.lastWire == Newest(f.channel.offered)
    && f.outOfOrder == LateCount(f.channel.offered)
  }

  lemma AcceptKeepsFeedOk(f: Feed, u: Update, d1: nat, d2: nat)
    requires FeedOk(f)
    ensures FeedOk(Accept(f, u, d1, d2))
  {
    if !f.closed {
      OfferKeepsValid(f.channel, u, d1, d2);
      var us := f.channel.offered;
      assert (us + [u])[..|us|] == us;
      assert IsLate(f, u) <==> Late(us, u);
    }
  }

  lemma {:induction false} RunKeepsFeedOk(buffer: nat, acts: seq<Action>)
    requires buffer >= 1
    ensures FeedOk(After(buffer, acts))
  {
    if acts != [] {
      var f, act := After(buffer, acts[..|acts| - 1]), acts[|acts| - 1];
      RunKeepsFeedOk(buffer, acts[..|acts| - 1]);
      match act {
        case Delivered(u, d1, d2) => AcceptKeepsFeedOk(f, u, d1, d2);
        case Received(n) => DrainKeepsValid(f.channel, n);
        case ShutDown =>
      }
    }
  }

  /** In every run, however the receiver interleaves: what was received or is queued is accepted
      updates in their order, ending with the newest; what is queued is the most recent ones; the
      number lost is at most Dropped; and
      OutOfOrder counts exactly the updates stamped earlier than an earlier one. */
  lemma DeliveryIsLossyButOrdered(buffer: nat, acts: seq<Action>)
    requires buffer >= 1
    ensures var f := After(buffer, acts);
            var c := f.channel;
            && |c.kept| == |c.Through()| && (forall i, j :: 0 <= i < j < |c.kept| ==> c.kept[i] < c.kept[j])
            && (forall j :: 0 <= j < |c.kept| ==> c.kept[j] < |c.offered| && c.Through()[j] == c.offered[c.kept[j]])
            && (c.offered != [] ==> c.kept != [] && c.Through()[|c.kept| - 1] == c.offered[|c.offered| - 1])
            && |c.queue| <= buffer
            && |c.queue| <= |c.offered| && c.queue == c.offered[|c.offered| - |c.queue|..]
            && |c.offered| - |c.Through()| <= f.dropped
            && f.outOfOrder == LateCount(c.offered)
  {
    hide After, LateCount, Newest;
    RunKeepsFeedOk(buffer, acts);
    CapNeverChanges(buffer, acts);
  }

  lemma {:induction false} CapNeverChanges(buffer: nat, acts: seq<Action>)
    ensures After(buffer, acts).channel.cap == buffer
  {
    if acts != [] {
      CapNeverChanges(buffer, acts[..|acts| - 1]);
    }
  }

  /** The updates delivered before the subscription was shut. */
  function Sent(acts: seq<Action>): seq<Update> {
    if acts == [] then []
    else
      var init, act := acts[..|acts| - 1], acts[|acts| - 1];
      Sent(init) + if act.Delivered? && ShutDown !in init then [act.u] else []
  }

  lemma OfferOffers<T>(c: Channel<T>, v: T, d1: nat, d2: nat)
    ensures c.Offer(v, d1, d2).offered == c.offered + [v]
  {
  }

  lemma StepOffers(f: Feed, act: Action)
    ensures var f' := Apply(f, act);
            && f'.channel.offered == f.channel.offered + (if act.Delivered? && !f.closed then [act.u] else [])
            && (f'.closed <==> f.closed || act == ShutDown)
  {
    if act.Delivered? {
      OfferOffers(f.channel, act.u, act.d1, act.d2);
    }
    hide Channel.Offer;
  }

  /** In every run: what the channel was offered is exactly what was delivered before the shutdown. */
  lemma {:induction false} NothingAfterShutdown(buffer: nat, acts: seq<Action>)
    ensures var f := After(buffer, acts); f.channel.offered == Sent(acts) && (f.closed <==> ShutDown in acts)
  {
    if acts != [] {
      var init, act := acts[..|acts| - 1], acts[|acts| - 1];
      NothingAfterShutdown(buffer, init);
      StepOffers(After(buffer, init), act);
      assert acts == init + [act];
      hide Apply;
    }
  }

  /** Dropped counts the deliveries that found the channel holding all it can, so it can exceed the
      losses: a receiver that empties a full channel between the failed send and the eviction leaves
      nothing to lose, and the drop is counted all the same. */
  lemma DroppedOvercountsIff(f: Feed, u: Update, d1: nat, d2: nat)
    requires FeedOk(f) && !f.closed
    ensures var f' := Accept(f, u, d1, d2);
            && f'.dropped == f.dropped + (if |f.channel.queue| == f.channel.cap then 1 else 0)
            && (f'.dropped - f.dropped == f'.channel.Lost() - f.channel.Lost() <==>
                |f.channel.queue| < f.channel.cap || d1 < |f.channel.queue|)
  {
    OfferKeepsValid(f.channel, u, d1, d2);
  }

  /** Such a delivery: the second of two updates finds a channel of one full, the receiver takes the
      first before the eviction, nothing is lost, and one drop is counted. */
  lemma DroppedMayOvercount(u: Update, v: Update) returns (acts: seq<Action>)
    ensures var f := After(1, acts); f.channel.Lost() == 0 && f.channel.Through() == [u, v] && f.dropped == 1
  {
    acts := [] + [Delivered(u, 0, 0)] + [Delivered(v, 1, 0)];
    AfterOneMore([], Delivered(u, 0, 0));
    AfterOneMore([] + [Delivered(u, 0, 0)], Delivered(v, 1, 0));
    var f := Accept(NewFeed(1), u, 0, 0);
    assert f.channel.queue == [u] && f.channel.received == [] && f.channel.Full();
    var c := f.channel.Drain(1);
    assert c.queue == [] && c.received == [u] && c.Evict() == c && c.Drain(0) == c;
    assert After(1, acts) == Accept(f, v, 1, 0);
  }

  lemma AfterOneMore(acts: seq<Action>, act: Action)
    ensures After(1, acts + [act]) == Apply(After(1, acts), act)
  {
    assert (acts + [act])[..|acts|] == acts;
  }

  class Subscription {
    const cap: nat
    var queue: seq<Update>
    var closed: bool
    var dropped: nat
    var outOfOrder: nat
    var lastWire: Option<int>
    ghost var channel: Channel<Update>

    ghost function Value(): Feed
      reads this
    {
      Feed(channel, closed, dropped, outOfOrder, lastWire)
    }

    ghost predicate Valid()
      reads this
    {
      FeedOk(Value()) && queue == channel.queue && cap == channel.cap
    }

    /** A non-positive buffer was replaced by the default when the orchestrator was built. */
    constructor (buffer: nat)
      requires buffer >= 1
      ensures Valid() && Value() == NewFeed(buffer)
    {
      cap, queue, closed, dropped, outOfOrder, lastWire := buffer, [], false, 0, 0, None;
      channel := Channel(buffer, [], [], [], []);
    }

    /** The receiver's side: take up to `n` values. */
    method Receive(n: nat) returns (taken: seq<Update>)
      requires queue == channel.queue
      modifies this`queue, this`channel
      ensures queue == channel.queue && channel == old(channel).Drain(n)
      ensures channel.received == old(channel).received + taken
    {
      var m := if n < |queue| then n else |queue|;
      taken := queue[..m];
      channel := channel.Drain(n);
      queue := queue[m..];
    }

    /** Send, or make room and send again, counting a drop whenever the first send failed. The
        receiver may run before the eviction (`d1`) and before the second send (`d2`). */
    method Enqueue(u: Update, d1: nat, d2: nat)
      requires queue == channel.queue && cap == channel.cap
      modifies this`queue, this`channel, this`dropped
      ensures queue == channel.queue && cap == channel.cap && channel == old(channel).Offer(u, d1, d2)
      ensures dropped == old(dropped) + if old(channel).Full() then 1 else 0
    {
      if |queue| < cap {
        queue := queue + [u];
        channel := channel.Push(u);
        return;
      }
      var _ := Receive(d1);
      if |queue| > 0 {
        queue := queue[1..];
        channel := channel.Evict();
      }
      var _ := Receive(d2);
      if |queue| < cap {
        queue := queue + [u];
        channel := channel.Push(u);
      } else {
        channel := channel.(offered := channel.offered + [u]);
      }
      dropped := dropped + 1;
    }

    method Deliver(u: Update, d1: nat, d2: nat)
      requires Valid()
      modifies this
      ensures Valid() && Value() == Accept(old(Value()), u, d1, d2)
    {
      hide FeedOk, Channel.Offer;
      AcceptKeepsFeedOk(Value(), u, d1, d2);
      if closed {
        return;
      }
      if u.stamp.Some? {
        if lastWire.Some? && u.stamp.value < lastWire.value {
          outOfOrder := outOfOrder + 1;
        } else {
          lastWire := u.stamp;
        }
      }
      Enqueue(u, d1, d2);
    }
  }

  // ---- the client error stream ----

  /** The stream counts a drop only when it actually threw an error away. */
  datatype Stream<T> = Stream(channel: Channel<T>, closed: bool, dropped: nat)

  function Report<T>(s: Stream<T>, err: T, d1: nat, d2: nat): Stream<T> {
    if s.closed then s
    else Stream(s.channel.Offer(err, d1, d2), false, s.dropped + if s.channel.Evicts(d1) then 1 else 0)
  }

  datatype StreamAction<T> = Reported(err: T, d1: nat, d2: nat) | Taken(n: nat) | StreamClosed

  function StreamApply<T>(s: Stream<T>, act: StreamAction<T>): Stream<T> {
    match act
    case Reported(err, d1, d2) => Report(s, err, d1, d2)
    case Taken(n) => s.(channel := s.channel.Drain(n))
    case StreamClosed => s.(closed := true)
  }

  function StreamAfter<T>(buffer: nat, acts: seq<StreamAction<T>>): Stream<T> {
    if acts == [] then Stream(Channel(buffer, [], [], [], []), false, 0)
    else StreamApply(StreamAfter(buffer, acts[..|acts| - 1]), acts[|acts| - 1])
  }

  lemma {:induction false} StreamKeepsCount<T>(buffer: nat, acts: seq<StreamAction<T>>)
    requires buffer >= 1
    ensures var s := StreamAfter(buffer, acts);
            s.channel.Valid() && s.channel.Lost() == s.dropped
  {
    if acts == [] {
      var none: seq<T> := [];
      assert StreamAfter(buffer, acts).channel.queue == none;
    } else {
      hide Channel.Valid, Channel.Offer, Channel.Drain, Channel.Evicts;
      var s, act := StreamAfter(buffer, acts[..|acts| - 1]), acts[|acts| - 1];
      StreamKeepsCount(buffer, acts[..|acts| - 1]);
      match act {
        case Reported(err, d1, d2) => OfferKeepsValid(s.channel, err, d1, d2);
        case Taken(n) => DrainKeepsValid(s.channel, n);
        case StreamClosed =>
      }
    }
  }

  /** In every run: every error accepted was received, is queued, or is counted by ErrorsDropped,
      exactly; what got through is in order and what is queued is the most recent errors. */
  lemma ErrorsAreConserved<T>(buffer: nat, acts: seq<StreamAction<T>>)
    requires buffer >= 1
    ensures var s := StreamAfter(buffer, acts);
            && s.channel.Valid()
            && |s.channel.offered| == |s.channel.received| + |s.channel.queue| + s.dropped
            && |s.channel.queue| <= |s.channel.offered|
            && s.channel.queue == s.channel.offered[|s.channel.offered| - |s.channel.queue|..]
  {
    hide StreamAfter;
    StreamKeepsCount(buffer, acts);
  }

  class ErrorStream<T> {
    const cap: nat
    var queue: seq<T>
    var closed: bool
    var dropped: nat
    ghost var channel: Channel<T>

    ghost function Value(): Stream<T>
      reads this
    {
      Stream(channel, closed, dropped)
    }

    constructor (buffer: nat)
      ensures Value() == StreamAfter<T>(buffer, []) && queue == channel.queue && cap == channel.cap
    {
      cap, queue, closed, dropped := buffer, [], false, 0;
      channel := Channel(buffer, [], [], [], []);
    }

    method Take(n: nat) returns (taken: seq<T>)
      requires queue == channel.queue
      modifies this`queue, this`channel
      ensures queue == channel.queue && channel == old(channel).Drain(n)
      ensures channel.received == old(channel).received + taken
    {
      var m := if n < |queue| then n else |queue|;
      taken := queue[..m];
      channel := channel.Drain(n);
      queue := queue[m..];
    }

    method ReportError(err: T, d1: nat, d2: nat)
      requires queue == channel.queue && cap == channel.cap
      modifies this
      ensures queue == channel.queue && cap == channel.cap
      ensures Value() == Report(old(Value()), err, d1, d2)
    {
      if closed {
        return;
      }
      if |queue| < cap {
        queue := queue + [err];
        channel := channel.Push(err);
        return;
      }
      var _ := Take(d1);
      if |queue| > 0 {
        queue := queue[1..];
        channel := channel.Evict();
        dropped := dropped + 1;
      }
      var _ := Take(d2);
      if |queue| < cap {
        queue := queue + [err];
        channel := channel.Push(err);
      } else {
        channel := channel.(offered := channel.offered + [err]);
      }
    }
  }
}
