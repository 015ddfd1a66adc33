/** The session-wide order push: one Gateway subscription shared by every order subscription on
    the connection, counted on its own. */
module OrderPush {
  import opened Lists

  /** `Lost` is the Gateway refusing to renew the push after a reconnect. */
  datatype TradeCall = Enabled | Disabled | Lost

  /** `shut[o]` is whether order subscription `o` has been shut down. */
  datatype Orders = Orders(on: bool, count: int, live: seq<nat>, shut: seq<bool>, calls: seq<TradeCall>, closed: bool)

  const NO_ORDERS := Orders(false, 0, [], [], [], false)

  /** `accepted` is the Gateway's answer, asked for only when the push is off. */
  function Subscribe(r: Orders, accepted: bool): Orders {
    if r.closed || (!r.on && !accepted) then r
    else
      r.(on := true, count := r.count + 1, live := r.live + [|r.shut|], shut := r.shut + [false],
         calls := if r.on then r.calls else r.calls + [Enabled])
  }

  /** The locked half of Cancel: forget the subscription, count it out, and disable the push when
      it was the last. */
  function Detach(r: Orders, o: nat): Orders {
    var last := r.count - 1 <= 0;
    r.(live := Without(r.live, o), count := r.count - 1, on := r.on && !last,
       calls := if last then r.calls + [Disabled] else r.calls)
  }

  function ShutOne(r: Orders, o: nat): Orders
    requires o < |r.shut|
  {
    r.(shut := r.shut[o := true])
  }

  function Cancel(r: Orders, o: nat): Orders
    requires o < |r.shut|
  {
    if r.shut[o] then r else ShutOne(Detach(r, o), o)
  }

  function ShutMany(shut: seq<bool>, doomed: seq<nat>): (r: seq<bool>)
    ensures |r| == |shut|
    ensures forall i {:trigger r[i]} :: 0 <= i < |shut| ==> r[i] == (shut[i] || i in doomed)
  {
    seq(|shut|, i requires 0 <= i < |shut| => shut[i] || i in doomed)
  }

  function Kill(r: Orders): Orders {
    r.(on := false, count := 0, live := [], shut := ShutMany(r.shut, r.live), calls := r.calls + [Lost])
  }

  /** Close forgets the subscriptions and leaves the count and the flag as they were. */
  function Close(r: Orders): Orders {
    r.(live := [], shut := ShutMany(r.shut, r.live), closed := true)
  }

  /** The count is the number of order subscriptions, and the push is on exactly while there are
      some. */
  predicate Counted(r: Orders) {
    r.count == |r.live| && (r.on <==> r.count > 0)
  }

  ghost predicate Inv(r: Orders) {
    && Distinct(r.live)
    && (forall o :: o in r.live <==> 0 <= o < |r.shut| && !r.shut[o])
    && TakesTurns(r.calls)
    && (if r.closed then r.live == [] else Counted(r) && (r.on <==> LastEnables(r.calls)))
  }

  predicate LastEnables(calls: seq<TradeCall>) {
    calls != [] && calls[|calls| - 1].Enabled?
  }

  /** The Gateway is asked to enable the push only when it is off, and to disable it only when it
      is on. */
  predicate TakesTurns(calls: seq<TradeCall>) {
    calls == []
    || (var init, last := calls[..|calls| - 1], calls[|calls| - 1];
        && TakesTurns(init)
        && (last.Enabled? ==> !LastEnables(init))
        && (last.Disabled? ==> LastEnables(init)))
  }

  lemma Told(calls: seq<TradeCall>, call: TradeCall)
    requires TakesTurns(calls)
    requires call.Enabled? ==> !LastEnables(calls)
    requires call.Disabled? ==> LastEnables(calls)
    ensures TakesTurns(calls + [call])
    ensures LastEnables(calls + [call]) <==> call.Enabled?
  {
    assert (calls + [call])[..|calls|] == calls;
  }

  /** A subscription is made exactly when the connection is open and either someone is subscribed
      already, so that the Gateway is not asked, or the Gateway accepts; it is the newest and open. */
  lemma SubscribesIff(r: Orders, accepted: bool)
    requires Inv(r)
    ensures var r' := Subscribe(r, accepted);
            if !r.closed && (r.live != [] || accepted) then
              && r'.live == r.live + [|r.shut|] && r'.shut == r.shut + [false]
              && r'.calls == r.calls + if r.live == [] then [Enabled] else []
            else r' == r
  {
  }

  /** The locked half of Cancel keeps the count exactly when the subscription is still listed: a
      second Cancel that overtakes the first one's shutdown counts it out twice. */
  lemma DetachKeepsCountIff(r: Orders, o: nat)
    requires Counted(r)
    ensures Counted(Detach(r, o)) <==> o in r.live
  {
    WithoutLength(r.live, o);
  }

  lemma CancelKeepsInv(r: Orders, o: nat)
    requires Inv(r) && o < |r.shut|
    ensures Inv(Cancel(r, o))
  {
    if !r.shut[o] {
      WithoutMembers(r.live, o);
      WithoutLength(r.live, o);
      assert o in r.live;
      Told(r.calls, Disabled);
    }
  }

  lemma SubscribeKeepsInv(r: Orders, accepted: bool)
    requires Inv(r)
    ensures Inv(Subscribe(r, accepted))
  {
    if !(r.closed || (!r.on && !accepted)) {
      DistinctAppend(r.live, |r.shut|);
      if !r.on {
        Told(r.calls, Enabled);
      }
    }
  }

  datatype Action = DoSubscribe(accepted: bool) | DoCancel(order: nat) | Resubscribe(accepted: bool) | DoClose

  function Apply(r: Orders, act: Action): Orders {
    match act
    case DoSubscribe(accepted) => Subscribe(r, accepted)
    case DoCancel(o) => if o < |r.shut| then Cancel(r, o) else r
    case Resubscribe(accepted) => if r.on && !accepted && !r.closed then Kill(r) else r
    case DoClose => Close(r)
  }

  function After(acts: seq<Action>): Orders {
    if acts == [] then NO_ORDERS else Apply(After(acts[..|acts| - 1]), acts[|acts| - 1])
  }

  /** Two subscribers, and two overlapping Cancels of the first one: both take the lock before
      either shuts it down, and the push is switched off under the second subscriber. */
  lemma OverlappingCancelsMiscount() returns (acts: seq<Action>)
    ensures var r := Detach(Detach(After(acts), 0), 0);
            Counted(After(acts)) && !Counted(r) && r.live == [1] && r.count == 0 && !r.on
  {
    acts := [DoSubscribe(true), DoSubscribe(true)];
    assert acts[..1] == [DoSubscribe(true)] && acts[..1][..0] == [];
    assert After(acts[..1]) == Orders(true, 1, [0], [false], [Enabled], false);
    assert After(acts).live == [0, 1] && After(acts).count == 2;
    assert Without([0, 1], 0) == [1] && Without([1], 0) == [1] + Without([], 0);
  }

  lemma {:induction false} RunKeepsInv(acts: seq<Action>)
    ensures Inv(After(acts))
  {
    if acts != [] {
      var r, act := After(acts[..|acts| - 1]), acts[|acts| - 1];
      RunKeepsInv(acts[..|acts| - 1]);
      match act {
        case DoSubscribe(accepted) => SubscribeKeepsInv(r, accepted);
        case DoCancel(o) => if o < |r.shut| { CancelKeepsInv(r, o); }
        case Resubscribe(_) => Told(r.calls, Lost);
        case DoClose =>
      }
    }
  }

  /** After any run of whole steps, until Close: the count is the number of live order
      subscriptions, the push is on exactly when it is positive, and the Gateway was last told
      to enable it exactly then. */
  lemma CountFollowsTheSubscribers(acts: seq<Action>)
    ensures var r := After(acts);
            && TakesTurns(r.calls)
            && (!r.closed ==>
                  && r.count == |set o | 0 <= o < |r.shut| && !r.shut[o]|
                  && (r.on <==> r.count > 0)
                  && (r.on <==> LastEnables(r.calls)))
  {
    RunKeepsInv(acts);
    var r := After(acts);
    assert (set o | 0 <= o < |r.shut| && !r.shut[o]) == ToSet(r.live);
    DistinctCardinality(r.live);
  }

  class OrderOrchestration {
    var on: bool
    var count: int
    var live: seq<nat>
    var shut: seq<bool>
    var closed: bool
    ghost var calls: seq<TradeCall>

    ghost function Value(): Orders
      reads this
    {
      Orders(on, count, live, shut, calls, closed)
    }

    constructor ()
      ensures Value() == NO_ORDERS
    {
      on, count, live, shut, closed, calls := false, 0, [], [], false, [];
    }

    method SubscribeOrders(accountIsZero: bool, accepted: bool) returns (ok: bool)
      modifies this
      ensures ok <==> !accountIsZero && !old(closed) && (old(on) || accepted)
      ensures Value() == if accountIsZero then old(Value()) else Subscribe(old(Value()), accepted)
    {
      if accountIsZero || closed {
        return false;
      }
      if !on {
        if !accepted {
          return false;
        }
        on := true;
        calls := calls + [Enabled];
      }
      live := live + [|shut|];
      shut := shut + [false];
      count := count + 1;
      return true;
    }

    method CancelOrder(o: nat)
      requires o < |shut|
      modifies this
      ensures Value() == Cancel(old(Value()), o)
    {
      if shut[o] {
        return;
      }
      live := Splice(live, o);
      count := count - 1;
      var last := count <= 0;
      if last {
        on := false;
        calls := calls + [Disabled];
      }
      shut := shut[o := true];
    }

    method ShutAll(doomed: seq<nat>)
      requires forall o :: o in doomed ==> o < |shut|
      modifies this`shut
      ensures shut == ShutMany(old(shut), doomed)
    {
      for i := 0 to |doomed|
        invariant shut == ShutMany(old(shut), doomed[..i])
      {
        assert doomed[i] in doomed;
        assert doomed[..i + 1] == doomed[..i] + [doomed[i]];
        shut := shut[doomed[i] := true];
      }
      assert doomed[..|doomed|] == doomed;
    }

    method KillOrders()
      requires forall o :: o in live ==> o < |shut|
      modifies this
      ensures Value() == Kill(old(Value()))
    {
      var doomed := live;
      live, on, count := [], false, 0;
      calls := calls + [Lost];
      ShutAll(doomed);
    }
  }
}
