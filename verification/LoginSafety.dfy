/** The single-flight law: in every interleaving, once a login for an account was accepted, no
    further login request for it goes out until that session is due for refresh, a Logout
    cleared it, or the store failed. */
module LoginSafety {
  import opened Prelude
  import opened Auth
  import opened LoginProtocol
  import opened LoginShape

  /** The store failed a call of attempt `t`. */
  predicate Faulted(log: seq<Event>, t: nat, a: AccountId) {
    exists k :: 0 <= k < |log| && log[k].StoreFault? && log[k].attempt == t && log[k].account == a
  }

  predicate FaultAt(e: Event, t: nat, a: AccountId, at: StoreCall) {
    e.StoreFault? && e.attempt == t && e.account == a && e.at == at
  }

  /** Attempt and account of the login accepted at i saved a session at k. */
  predicate SavedBy(log: seq<Event>, i: nat, k: nat)
    requires i < |log| && log[i].Accepted? && k < |log|
  {
    log[k].Saved? && log[k].attempt == log[i].attempt && log[k].account == log[i].account
  }

  ghost predicate SavedBefore(log: seq<Event>, i: nat, k: nat)
    requires i < k <= |log| && log[i].Accepted?
  {
    exists m :: i < m < k && SavedBy(log, i, m)
  }

  /** Whether event k explains, to whoever asks at `now`, why the login accepted at i no longer
      counts: its own saved session is due for refresh; or that session was saved and then a Logout
      cleared the account, or an attempt the store had failed discarded what was held; or its own
      save failed. */
  ghost predicate Excuses(log: seq<Event>, i: nat, k: nat, now: int)
    requires i < k < |log| && log[i].Accepted?
  {
    match log[k]
    case LoggedOut(a) => a == log[i].account && SavedBefore(log, i, k)
    case Saved(t, a, s) => t == log[i].attempt && a == log[i].account && s.ShouldRefresh(now)
    case StoreFault(t, a, at, _) => t == log[i].attempt && a == log[i].account && at == AtSave
    case Discarded(v, a, removed, _) =>
      a == log[i].account && removed.Some? && Faulted(log[..k], v, a) && SavedBefore(log, i, k)
    case _ => false
  }

  ghost predicate Excused(log: seq<Event>, i: nat, upto: nat, now: int)
    requires i < upto <= |log| && log[i].Accepted?
  {
    exists k :: i < k < upto && Excuses(log, i, k, now)
  }

  /** Attempt `u` could not see the login accepted at i: its re-read failed after that. */
  ghost predicate Unseen(log: seq<Event>, i: nat, upto: nat, u: nat)
    requires i < upto <= |log| && log[i].Accepted?
  {
    exists k :: i < k < upto && FaultAt(log[k], u, log[i].account, AtReRead)
  }

  /** The login accepted at `i` was saved, and `held` is due for refresh no sooner. */
  ghost predicate SavedAs(log: seq<Event>, i: nat, held: Option<Session>)
    requires i < |log| && log[i].Accepted?
  {
    held.Some? && exists k :: i < k < |log| && SavedBy(log, i, k) && log[k].session.refreshAt <= held.value.refreshAt
  }

  predicate IsAccept(log: seq<Event>, i: nat, a: AccountId) {
    i < |log| && log[i].Accepted? && log[i].account == a
  }

  /** Every accepted login of `a` is excused by now, or attempt `u` could not see it. */
  ghost predicate AllExcused(s: State, a: AccountId, u: nat) {
    forall i: nat {:trigger IsAccept(s.log, i, a)} :: IsAccept(s.log, i, a) ==>
      Excused(s.log, i, |s.log|, s.clock) || Unseen(s.log, i, |s.log|, u)
  }

  /** Every accepted login of `a`, but for that of attempt `but`, is excused or is covered by what
      `held` holds. */
  ghost predicate ExcusedOrHeld(s: State, a: AccountId, held: Option<Session>, but: Option<nat>) {
    forall i: nat {:trigger IsAccept(s.log, i, a)} :: IsAccept(s.log, i, a) ==>
      but == Some(s.log[i].attempt) || Excused(s.log, i, |s.log|, s.clock) || SavedAs(s.log, i, held)
  }

  /** What the store holds for `a` was already due for refresh when the leader of `t` read it. */
  predicate Stale(s: State, a: AccountId, t: nat, readAt: Option<int>) {
    a in s.store ==> Faulted(s.log, t, a) || (readAt.Some? && s.store[a].ShouldRefresh(readAt.value))
  }

  /** What the leader of `a` has established at its stage. */
  ghost predicate LeaderKnows(s: State, a: AccountId, pc: Pc)
    requires pc.Lead?
  {
    var t, held := pc.attempt, Lookup(s.store, a);
    match pc.stage
    case ReReading => ExcusedOrHeld(s, a, held, None)
    case ReRead(seen) =>
      ExcusedOrHeld(s, a, held, None) && ExcusedOrHeld(s, a, seen, None) && (held.Some? ==> seen == held)
    case Tokened(_, _) => ExcusedOrHeld(s, a, held, Some(t))
    case Stamped(_, _) => ExcusedOrHeld(s, a, held, Some(t))
    case Stored(_) => ExcusedOrHeld(s, a, held, None)
    case Ending(_, o) => Settled(s, a, t, pc.readAt, o)
    case Settling(o) => Settled(s, a, t, pc.readAt, o)
    case Publishing(_) => ExcusedOrHeld(s, a, held, None)
    case _ => AllExcused(s, a, t) && ExcusedOrHeld(s, a, held, None) && Stale(s, a, t, pc.readAt)
  }

  /** Before a session is discarded there is nothing in it to lose, unless the store failed the
      leader that discards it. */
  ghost predicate Settled(s: State, a: AccountId, t: nat, readAt: Option<int>, o: Outcome) {
    && ExcusedOrHeld(s, a, Lookup(s.store, a), None)
    && (o.Failure? && SessionUnusable(o.error) ==>
          Stale(s, a, t, readAt) && (Faulted(s.log, t, a) || ExcusedOrHeld(s, a, None, None)))
  }

  ghost predicate Accounted(s: State, a: AccountId) {
    if a in s.leaders && LeadsAt(s, s.leaders[a]) then LeaderKnows(s, a, s.calls[s.leaders[a]].pc)
    else ExcusedOrHeld(s, a, Lookup(s.store, a), None)
  }

  /** No session saved for `a` is due for refresh later than `refreshAt`. */
  predicate NoneNewer(log: seq<Event>, a: AccountId, refreshAt: int) {
    forall k :: 0 <= k < |log| && log[k].Saved? && log[k].account == a ==> log[k].session.refreshAt <= refreshAt
  }

  const REFRESH_AFTER := TOKEN_TTL - REFRESH_WINDOW

  /** A session about to be saved is newer than every one saved for its account before. */
  predicate StampOk(s: State, c: nat) {
    LeadsAt(s, c) && StageOf(s, c).Stamped? ==>
      var at := StageOf(s, c).stamped.refreshAt;
      at <= s.clock + REFRESH_AFTER && NoneNewer(s.log, s.calls[c].account, at)
  }

  ghost predicate Ordered(s: State) {
    && (forall k :: 0 <= k < |s.log| && s.log[k].Saved? ==> s.log[k].session.refreshAt <= s.clock + REFRESH_AFTER)
    && (forall c {:trigger StampOk(s, c)} :: StampOk(s, c))
  }

  /** The law itself, over what has happened so far. */
  ghost predicate SingleFlight(log: seq<Event>) {
    forall i: nat, j: nat {:trigger IsRequest(log, i, j)} :: IsRequest(log, i, j) ==>
      Excused(log, i, j, log[j].now) || Unseen(log, i, j, log[j].attempt)
  }

  /** A request at `j` for the account of the login accepted at `i`. */
  predicate IsRequest(log: seq<Event>, i: nat, j: nat) {
    i < j < |log| && log[i].Accepted? && log[j].Requested? && log[j].account == log[i].account
  }

  /** A discarded session was due for refresh when its leader read it, or the store failed on
      that leader. */
  ghost predicate NoLiveDiscard(log: seq<Event>) {
    forall j: nat :: j < |log| && log[j].Discarded? && log[j].removed.Some? ==>
      || Faulted(log[..j], log[j].attempt, log[j].account)
      || (log[j].readAt.Some? && log[j].removed.value.ShouldRefresh(log[j].readAt.value))
  }

  ghost predicate Safe(s: State) {
    && Shape(s)
    && Ordered(s)
    && (forall a {:trigger Accounted(s, a)} :: Accounted(s, a))
    && SingleFlight(s.log)
    && NoLiveDiscard(s.log)
  }

  // ---- what was excused stays excused ----

  /** Time passed and things happened, but no login of `a` was accepted. */
  ghost predicate Later(s: State, s': State, a: AccountId) {
    && s.clock <= s'.clock
    && s.log <= s'.log
    && (forall i: nat {:trigger IsAccept(s'.log, i, a)} :: |s.log| <= i ==> !IsAccept(s'.log, i, a))
  }

  lemma ExcusesLater(log: seq<Event>, log': seq<Event>, i: nat, k: nat, now: int, now': int)
    requires log <= log' && i < k < |log| && log[i].Accepted? && now <= now' && Excuses(log, i, k, now)
    ensures Excuses(log', i, k, now')
  {
    assert log'[..k] == log[..k];
    if SavedBefore(log, i, k) {
      var m :| i < m < k && SavedBy(log, i, m);
      assert SavedBy(log', i, m);
    }
  }

  lemma ExcusedLater(s: State, s': State, i: nat, u: nat)
    requires s.clock <= s'.clock && s.log <= s'.log && i < |s.log| && s.log[i].Accepted?
    ensures Excused(s.log, i, |s.log|, s.clock) ==> Excused(s'.log, i, |s'.log|, s'.clock)
    ensures Unseen(s.log, i, |s.log|, u) ==> Unseen(s'.log, i, |s'.log|, u)
  {
    if Excused(s.log, i, |s.log|, s.clock) {
      var k :| i < k < |s.log| && Excuses(s.log, i, k, s.clock);
      ExcusesLater(s.log, s'.log, i, k, s.clock, s'.clock);
    }
    if Unseen(s.log, i, |s.log|, u) {
      var k :| i < k < |s.log| && FaultAt(s.log[k], u, s.log[i].account, AtReRead);
      assert s'.log[k] == s.log[k];
    }
  }

  lemma SavedAsLater(s: State, s': State, i: nat, held: Option<Session>)
    requires s.log <= s'.log && i < |s.log| && s.log[i].Accepted?
    ensures SavedAs(s.log, i, held) ==> SavedAs(s'.log, i, held)
  {
    if SavedAs(s.log, i, held) {
      var k :| i < k < |s.log| && SavedBy(s.log, i, k) && s.log[k].session.refreshAt <= held.value.refreshAt;
      assert SavedBy(s'.log, i, k);
    }
  }

  lemma HeldLater(s: State, s': State, a: AccountId, held: Option<Session>, but: Option<nat>)
    requires Later(s, s', a) && ExcusedOrHeld(s, a, held, but)
    ensures ExcusedOrHeld(s', a, held, but)
  {
    forall i: nat | IsAccept(s'.log, i, a)
      ensures but == Some(s'.log[i].attempt) || Excused(s'.log, i, |s'.log|, s'.clock) || SavedAs(s'.log, i, held)
    {
      assert IsAccept(s.log, i, a);
      ExcusedLater(s, s', i, 0);
      SavedAsLater(s, s', i, held);
    }
  }

  lemma AllExcusedLater(s: State, s': State, a: AccountId, u: nat)
    requires Later(s, s', a) && AllExcused(s, a, u)
    ensures AllExcused(s', a, u)
  {
    forall i: nat | IsAccept(s'.log, i, a)
      ensures Excused(s'.log, i, |s'.log|, s'.clock) || Unseen(s'.log, i, |s'.log|, u)
    {
      assert IsAccept(s.log, i, a);
      ExcusedLater(s, s', i, u);
    }
  }

  lemma FaultedLater(s: State, s': State, t: nat, a: AccountId)
    requires s.log <= s'.log
    ensures Faulted(s.log, t, a) ==> Faulted(s'.log, t, a)
  {
    if Faulted(s.log, t, a) {
      var k :| 0 <= k < |s.log| && s.log[k].StoreFault? && s.log[k].attempt == t && s.log[k].account == a;
      assert s'.log[k] == s.log[k];
    }
  }

  /** What a leader knows survives whatever leaves its account's store entry alone. */
  lemma KnowsLater(s: State, s': State, a: AccountId, pc: Pc)
    requires pc.Lead? && LeaderKnows(s, a, pc) && Later(s, s', a) && Lookup(s'.store, a) == Lookup(s.store, a)
    ensures LeaderKnows(s', a, pc)
  {
    var t, held := pc.attempt, Lookup(s.store, a);
    FaultedLater(s, s', t, a);
    assert a in s'.store <==> a in s.store;
    hide ExcusedOrHeld, AllExcused, Later, Faulted;
    match pc.stage
    case ReRead(seen) => HeldLater(s, s', a, held, None); HeldLater(s, s', a, seen, None);
    case Tokened(_, _) => HeldLater(s, s', a, held, Some(t));
    case Stamped(_, _) => HeldLater(s, s', a, held, Some(t));
    case Ending(_, o) => SettledLater(s, s', a, t, pc.readAt, o);
    case Settling(o) => SettledLater(s, s', a, t, pc.readAt, o);
    case ReReading => HeldLater(s, s', a, held, None);
    case Stored(_) => HeldLater(s, s', a, held, None);
    case Publishing(_) => HeldLater(s, s', a, held, None);
    case _ => HeldLater(s, s', a, held, None); AllExcusedLater(s, s', a, t);
  }

  lemma SettledLater(s: State, s': State, a: AccountId, t: nat, readAt: Option<int>, o: Outcome)
    requires Settled(s, a, t, readAt, o) && Later(s, s', a) && Lookup(s'.store, a) == Lookup(s.store, a)
    ensures Settled(s', a, t, readAt, o)
  {
    HeldLater(s, s', a, Lookup(s.store, a), None);
    FaultedLater(s, s', t, a);
    assert a in s'.store <==> a in s.store;
    hide ExcusedOrHeld, Later, Faulted;
    if o.Failure? && SessionUnusable(o.error) && !Faulted(s.log, t, a) {
      HeldLater(s, s', a, None, None);
    }
  }

  /** An account whose store entry and leader the step leaves alone stays accounted for. */
  lemma OthersAccounted(s: State, s': State, a: AccountId)
    requires Accounted(s, a) && Later(s, s', a)
    requires Lookup(s'.store, a) == Lookup(s.store, a)
    requires Lookup(s'.leaders, a) == Lookup(s.leaders, a)
    requires a in s.leaders ==> Lookup(s'.calls, s.leaders[a]) == Lookup(s.calls, s.leaders[a])
    ensures Accounted(s', a)
  {
    assert a in s'.leaders <==> a in s.leaders;
    if a in s.leaders && LeadsAt(s, s.leaders[a]) {
      assert s.leaders[a] in s'.calls;
      KnowsLater(s, s', a, s.calls[s.leaders[a]].pc);
    } else {
      assert a in s.leaders ==> (s.leaders[a] in s'.calls <==> s.leaders[a] in s.calls);
      HeldLater(s, s', a, Lookup(s.store, a), None);
    }
  }

  // ---- the steps of a leader ----

  /** A Logout's clear, or a discard by an attempt the store had failed, excuses every login that
      was excused before or covered by what was held, for it was saved then. */
  lemma LastEventExcusesAll(s: State, s': State, e: Event, a: AccountId, held: Option<Session>, but: Option<nat>)
    requires ExcusedOrHeld(s, a, held, but) && s'.log == s.log + [e] && s.clock <= s'.clock
    requires e == LoggedOut(a) || (e.Discarded? && e.account == a && e.removed.Some? && Faulted(s.log, e.attempt, a))
    ensures ExcusedOrHeld(s', a, None, but)
  {
    var n := |s.log|;
    assert s'.log[..n] == s.log;
    forall i: nat | IsAccept(s'.log, i, a)
      ensures but == Some(s'.log[i].attempt) || Excused(s'.log, i, |s'.log|, s'.clock)
    {
      assert IsAccept(s.log, i, a);
      ExcusedLater(s, s', i, 0);
      if SavedAs(s.log, i, held) {
        var k :| i < k < n && SavedBy(s.log, i, k) && s.log[k].session.refreshAt <= held.value.refreshAt;
        assert SavedBy(s'.log, i, k);
        assert Excuses(s'.log, i, n, s'.clock);
      }
    }
  }

  /** With nothing held, everything that is excused is excused whatever is held. */
  lemma HeldOrNot(s: State, a: AccountId, held: Option<Session>, but: Option<nat>)
    requires ExcusedOrHeld(s, a, None, but)
    ensures ExcusedOrHeld(s, a, held, but)
  {
  }

  /** A Logout's clear leaves the account accounted for wherever its leader is. */
  lemma LogoutAccounted(s: State, s': State, a: AccountId)
    requires Accounted(s, a) && s'.log == s.log + [LoggedOut(a)] && s'.clock == s.clock && a !in s'.store
    requires Lookup(s'.leaders, a) == Lookup(s.leaders, a)
    requires a in s.leaders ==> Lookup(s'.calls, s.leaders[a]) == Lookup(s.calls, s.leaders[a])
    ensures Accounted(s', a)
  {
    var held := Lookup(s.store, a);
    assert a in s'.leaders <==> a in s.leaders;
    if a in s.leaders && LeadsAt(s, s.leaders[a]) {
      assert s.leaders[a] in s'.calls;
      var pc := s.calls[s.leaders[a]].pc;
      var but := if pc.stage.Tokened? || pc.stage.Stamped? then Some(pc.attempt) else None;
      LastEventExcusesAll(s, s', LoggedOut(a), a, held, but);
      HeldOrNot(s', a, if pc.stage.ReRead? then pc.stage.held else None, but);
      hide ExcusedOrHeld;
      assert but.None? ==> AllExcused(s', a, pc.attempt) by {
        if but.None? {
          StrictIsEnough(s', a, pc.attempt);
        }
      }
    } else {
      assert a in s.leaders ==> (s.leaders[a] in s'.calls <==> s.leaders[a] in s.calls);
      LastEventExcusesAll(s, s', LoggedOut(a), a, held, None);
    }
  }

  lemma StrictIsEnough(s: State, a: AccountId, u: nat)
    requires ExcusedOrHeld(s, a, None, None)
    ensures AllExcused(s, a, u)
  {
  }

  lemma LeadReadAccounted(s: State, c: nat, fault: Option<Error>, a: AccountId)
    requires LeadsAt(s, c) && s.calls[c].account == a && StageOf(s, c).ReReading?
    requires LeaderKnows(s, a, s.calls[c].pc)
    ensures LeaderKnows(LeadRead(s, c, fault), a, LeadRead(s, c, fault).calls[c].pc)
  {
    var s', t := LeadRead(s, c, fault), s.calls[c].pc.attempt;
    HeldLater(s, s', a, Lookup(s.store, a), None);
    if fault.Some? {
      assert FaultAt(s'.log[|s.log|], t, a, AtReRead);
      forall i: nat | IsAccept(s'.log, i, a) ensures Unseen(s'.log, i, |s'.log|, t) {
      }
    }
  }

  /** When the leader finds no live session, every accepted login is excused. */
  lemma LeadClockAccounted(s: State, c: nat, a: AccountId)
    requires LeadsAt(s, c) && s.calls[c].account == a && StageOf(s, c).ReRead?
    requires LeaderKnows(s, a, s.calls[c].pc)
    ensures LeaderKnows(LeadClock(s, c), a, LeadClock(s, c).calls[c].pc)
  {
    var s' := LeadClock(s, c);
    var held := StageOf(s, c).held;
    HeldLater(s, s', a, Lookup(s.store, a), None);
    if !Live(held, s.clock) {
      forall i: nat | IsAccept(s'.log, i, a) ensures Excused(s'.log, i, |s'.log|, s'.clock) {
        assert IsAccept(s.log, i, a);
        if SavedAs(s.log, i, held) {
          var k :| i < k < |s.log| && SavedBy(s.log, i, k) && s.log[k].session.refreshAt <= held.value.refreshAt;
          assert Excuses(s.log, i, k, s.clock);
        }
        ExcusedLater(s, s', i, 0);
      }
    }
  }

  /** A rejected login leaves everything as it was; without a store failure nothing is lost by a
      discard then. */
  lemma FailureSettles(s: State, s': State, a: AccountId, t: nat, readAt: Option<int>, o: Outcome)
    requires AllExcused(s, a, t) && ExcusedOrHeld(s, a, Lookup(s.store, a), None) && Stale(s, a, t, readAt)
    requires Later(s, s', a) && s'.store == s.store
    ensures Settled(s', a, t, readAt, o)
  {
    HeldLater(s, s', a, Lookup(s.store, a), None);
    FaultedLater(s, s', t, a);
    if !Faulted(s.log, t, a) {
      forall i: nat | IsAccept(s'.log, i, a) ensures Excused(s'.log, i, |s'.log|, s'.clock) {
        assert IsAccept(s.log, i, a);
        NotUnseen(s.log, i, t);
        ExcusedLater(s, s', i, t);
      }
    }
  }

  lemma NotUnseen(log: seq<Event>, i: nat, t: nat)
    requires i < |log| && log[i].Accepted?
    ensures Unseen(log, i, |log|, t) ==> Faulted(log, t, log[i].account)
  {
  }

  lemma ReceiveAccounted(s: State, c: nat, reply: Reply, a: AccountId)
    requires LeadsAt(s, c) && s.calls[c].account == a && StageOf(s, c).Sent?
    requires LeaderKnows(s, a, s.calls[c].pc)
    ensures LeaderKnows(Receive(s, c, reply), a, Receive(s, c, reply).calls[c].pc)
  {
    var s', pc := Receive(s, c, reply), s.calls[c].pc;
    if reply.Rejected? {
      FailureSettles(s, s', a, pc.attempt, pc.readAt, Failure(reply.error));
    } else {
      var held := Lookup(s.store, a);
      forall i: nat | IsAccept(s'.log, i, a)
        ensures || Some(pc.attempt) == Some(s'.log[i].attempt)
                || Excused(s'.log, i, |s'.log|, s'.clock) || SavedAs(s'.log, i, held)
      {
        if i < |s.log| {
          assert IsAccept(s.log, i, a);
          ExcusedLater(s, s', i, 0);
          SavedAsLater(s, s', i, held);
        }
      }
    }
  }

  lemma SendAccounted(s: State, c: nat, fault: Option<Error>, a: AccountId)
    requires LeadsAt(s, c) && s.calls[c].account == a && StageOf(s, c).Flying?
    requires LeaderKnows(s, a, s.calls[c].pc)
    ensures LeaderKnows(Send(s, c, fault), a, Send(s, c, fault).calls[c].pc)
  {
    var s', pc := Send(s, c, fault), s.calls[c].pc;
    if fault.Some? {
      FailureSettles(s, s', a, pc.attempt, pc.readAt, Failure(fault.value));
    } else {
      HeldLater(s, s', a, Lookup(s.store, a), None);
      AllExcusedLater(s, s', a, pc.attempt);
      FaultedLater(s, s', pc.attempt, a);
    }
  }

  /** Saving makes the attempt's own accepted login the session the store holds, which covers
      every older one; a failed save excuses the attempt's own. */
  lemma SaveAccounted(s: State, c: nat, fault: Option<Error>, a: AccountId)
    requires LeadsAt(s, c) && s.calls[c].account == a && StageOf(s, c).Stamped? && StampOk(s, c)
    requires LeaderKnows(s, a, s.calls[c].pc)
    ensures LeaderKnows(Save(s, c, fault), a, Save(s, c, fault).calls[c].pc)
  {
    var s', t := Save(s, c, fault), s.calls[c].pc.attempt;
    var before, held := Lookup(s.store, a), Lookup(s'.store, a);
    assert s'.log[..|s.log|] == s.log;
    assert s'.log[|s.log|] in s'.log;
    forall i: nat | IsAccept(s'.log, i, a)
      ensures Excused(s'.log, i, |s'.log|, s'.clock) || SavedAs(s'.log, i, held)
    {
      assert IsAccept(s.log, i, a);
      ExcusedLater(s, s', i, 0);
      if s.log[i].attempt == t {
        assert fault.Some? ==> Excuses(s'.log, i, |s.log|, s'.clock);
        assert fault.None? ==> SavedBy(s'.log, i, |s.log|);
      } else if SavedAs(s.log, i, before) {
        var k :| i < k < |s.log| && SavedBy(s.log, i, k) && s.log[k].session.refreshAt <= before.value.refreshAt;
        assert SavedBy(s'.log, i, k);
      }
    }
  }

  lemma ReadBackAccounted(s: State, c: nat, fault: Option<Error>, a: AccountId)
    requires LeadsAt(s, c) && s.calls[c].account == a && StageOf(s, c).Stored?
    requires LeaderKnows(s, a, s.calls[c].pc)
    ensures LeaderKnows(ReadBack(s, c, fault), a, ReadBack(s, c, fault).calls[c].pc)
  {
    var s' := ReadBack(s, c, fault);
    HeldLater(s, s', a, Lookup(s.store, a), None);
    assert fault.Some? ==> s'.log[|s.log|] in s'.log;
  }

  lemma SettleAccounted(s: State, c: nat, fault: Option<Error>, a: AccountId)
    requires LeadsAt(s, c) && s.calls[c].account == a && StageOf(s, c).Settling?
    requires LeaderKnows(s, a, s.calls[c].pc)
    ensures LeaderKnows(Settle(s, c, fault), a, Settle(s, c, fault).calls[c].pc)
  {
    var s', t := Settle(s, c, fault), s.calls[c].pc.attempt;
    if s'.store == s.store {
      HeldLater(s, s', a, Lookup(s.store, a), None);
    } else if a in s.store && Faulted(s.log, t, a) {
      LastEventExcusesAll(s, s', s'.log[|s.log|], a, Lookup(s.store, a), None);
    } else {
      assert Lookup(s.store, a).None? || !Faulted(s.log, t, a);
      HeldLater(s, s', a, None, None);
    }
  }

  lemma PublishAccounted(s: State, c: nat, a: AccountId)
    requires LeadsAt(s, c) && s.calls[c].account == a && StageOf(s, c).Publishing?
    requires LeaderKnows(s, a, s.calls[c].pc)
    ensures Accounted(Publish(s, c), a)
  {
    HeldLater(s, Publish(s, c), a, Lookup(s.store, a), None);
  }

  /** The remaining steps of a leader carry what it knows along. */
  lemma CarryAccounted(s: State, c: nat, choice: Choice, a: AccountId)
    requires LeadsAt(s, c) && s.calls[c].account == a && LeaderKnows(s, a, s.calls[c].pc)
    requires var st := StageOf(s, c); st.InnerBeginning? || st.Tokened? || st.Ending?
    ensures var s' := LeadStep(s, c, choice); LeadsAt(s', c) && LeaderKnows(s', a, s'.calls[c].pc)
  {
    var s' := LeadStep(s, c, choice);
    KnowsLater(s, s', a, s.calls[c].pc);
  }

  /** What a step of call `c`, whose account is `a`, may touch. */
  ghost predicate Touches(s: State, s': State, c: nat, a: AccountId) {
    && s.clock <= s'.clock
    && s.log <= s'.log && |s'.log| <= |s.log| + 1
    && (|s'.log| > |s.log| ==> s'.log[|s.log|].account == a)
    && (forall b :: b != a ==>
          Lookup(s'.store, b) == Lookup(s.store, b) && Lookup(s'.leaders, b) == Lookup(s.leaders, b))
    && (forall d :: d != c ==> Lookup(s'.calls, d) == Lookup(s.calls, d))
  }

  lemma EarlyStepTouches(s: State, c: nat, choice: Choice)
    requires LeadsAt(s, c) && !InFlight(StageOf(s, c))
    requires !StageOf(s, c).Settling? && !StageOf(s, c).Publishing?
    ensures Touches(s, LeadStep(s, c, choice), c, s.calls[c].account)
  {
  }

  lemma FlightStepTouches(s: State, c: nat, choice: Choice)
    requires LeadsAt(s, c) && InFlight(StageOf(s, c))
    ensures Touches(s, LeadStep(s, c, choice), c, s.calls[c].account)
  {
  }

  lemma LateStepTouches(s: State, c: nat, choice: Choice)
    requires LeadsAt(s, c) && (StageOf(s, c).Settling? || StageOf(s, c).Publishing?)
    ensures Touches(s, LeadStep(s, c, choice), c, s.calls[c].account)
  {
  }

  lemma LeadStepTouches(s: State, c: nat, choice: Choice)
    requires LeadsAt(s, c)
    ensures Touches(s, LeadStep(s, c, choice), c, s.calls[c].account)
  {
    if InFlight(StageOf(s, c)) {
      FlightStepTouches(s, c, choice);
    } else if StageOf(s, c).Settling? || StageOf(s, c).Publishing? {
      LateStepTouches(s, c, choice);
    } else {
      EarlyStepTouches(s, c, choice);
    }
  }

  lemma MoveTouches(s: State, c: nat, pc: Pc)
    requires c in s.calls
    ensures Touches(s, To(s, c, pc), c, s.calls[c].account) && Touches(s, s, c, s.calls[c].account)
  {
  }

  lemma NotedMoveTouches(s: State, c: nat, pc: Pc, e: Event)
    requires c in s.calls && e.account == s.calls[c].account
    ensures Touches(s, Note(To(s, c, pc), e), c, s.calls[c].account)
  {
  }

  lemma LogoutStepTouches(s: State, c: nat, choice: Choice)
    requires c in s.calls
    ensures Touches(s, LogoutRead(s, c, choice.fault), c, s.calls[c].account)
    ensures Touches(s, LogoutReceive(s, c, choice.reply), c, s.calls[c].account)
  {
  }

  lemma EnterTouches(s: State, c: nat)
    requires c in s.calls
    ensures Touches(s, Enter(s, c), c, s.calls[c].account)
  {
  }

  lemma LogoutClearTouches(s: State, c: nat, fault: Option<Error>)
    requires c in s.calls
    ensures Touches(s, LogoutClear(s, c, fault), c, s.calls[c].account)
  {
  }

  lemma FollowerStepTouches(s: State, c: nat, choice: Choice)
    requires c in s.calls && !LeadsAt(s, c)
    ensures Touches(s, CallStep(s, c, choice), c, s.calls[c].account)
  {
    hide Touches, To, Note, Enter, LeadStep, LogoutRead, LogoutReceive, LogoutClear;
    EnterTouches(s, c);
    LogoutStepTouches(s, c, choice);
    LogoutClearTouches(s, c, choice.fault);
    forall pc, e: Event | e.account == s.calls[c].account
      ensures Touches(s, Note(To(s, c, pc), e), c, s.calls[c].account)
    {
      NotedMoveTouches(s, c, pc, e);
    }
    forall pc ensures Touches(s, To(s, c, pc), c, s.calls[c].account) {
      MoveTouches(s, c, pc);
    }
    MoveTouches(s, c, s.calls[c].pc);
  }

  lemma CallStepTouches(s: State, c: nat, choice: Choice)
    requires c in s.calls
    ensures Touches(s, CallStep(s, c, choice), c, s.calls[c].account)
  {
    if LeadsAt(s, c) {
      LeadStepTouches(s, c, choice);
    } else {
      FollowerStepTouches(s, c, choice);
    }
  }

  /** A call's step accounts for every account if it accounts for its own. */
  lemma TouchedAccounted(s: State, s': State, c: nat, a: AccountId)
    requires Shape(s) && Touches(s, s', c, a)
    requires c in s.calls ==> s.calls[c].account == a
    requires forall b {:trigger Accounted(s, b)} :: Accounted(s, b)
    requires Accounted(s', a)
    ensures forall b {:trigger Accounted(s', b)} :: Accounted(s', b)
  {
    forall b ensures Accounted(s', b) {
      if b != a {
        assert AccountOk(s, b) && Accounted(s, b);
        assert Later(s, s', b);
        OthersAccounted(s, s', b);
      }
    }
  }

  lemma LeadStepAccounted(s: State, c: nat, choice: Choice)
    requires Shape(s) && LeadsAt(s, c) && Accounted(s, s.calls[c].account) && StampOk(s, c)
    ensures Accounted(LeadStep(s, c, choice), s.calls[c].account)
  {
    var a, st := s.calls[c].account, StageOf(s, c);
    assert CallOk(s, c);
    assert LeaderKnows(s, a, s.calls[c].pc);
    hide Shape, LeaderKnows, ExcusedOrHeld, StampOk;
    if st.ReReading? {
      LeadReadAccounted(s, c, choice.fault, a);
    } else if st.ReRead? {
      LeadClockAccounted(s, c, a);
    } else if st.Flying? {
      SendAccounted(s, c, choice.fault, a);
    } else if st.Sent? {
      ReceiveAccounted(s, c, choice.reply, a);
    } else if st.Stamped? {
      SaveAccounted(s, c, choice.fault, a);
    } else if st.Stored? {
      ReadBackAccounted(s, c, choice.fault, a);
    } else if st.Settling? {
      SettleAccounted(s, c, choice.fault, a);
    } else if st.Publishing? {
      PublishAccounted(s, c, a);
    } else {
      CarryAccounted(s, c, choice, a);
    }
  }

  /** A call that does not lead accepts nothing, and but for a Logout's clear leaves the store alone. */
  lemma FollowerStepLogs(s: State, c: nat, choice: Choice)
    requires c in s.calls && !LeadsAt(s, c)
    ensures var s' := CallStep(s, c, choice);
            && Later(s, s', s.calls[c].account)
            && (s'.store == s.store || (s.calls[c].pc.LogoutClearing? && choice.fault.None?))
            && (|s'.log| > |s.log| ==> !s'.log[|s.log|].Requested? && !s'.log[|s.log|].Discarded?)
  {
    hide Touches;
  }

  lemma CallStepAccounted(s: State, c: nat, choice: Choice)
    requires Shape(s) && c in s.calls && Accounted(s, s.calls[c].account) && StampOk(s, c)
    ensures Accounted(CallStep(s, c, choice), s.calls[c].account)
  {
    var a, pc := s.calls[c].account, s.calls[c].pc;
    var s' := CallStep(s, c, choice);
    assert CallOk(s, c) && AccountOk(s, a);
    if pc.Lead? {
      LeadStepAccounted(s, c, choice);
    } else if pc.LogoutClearing? && choice.fault.None? {
      LogoutAccounted(s, s', a);
    } else if pc.AtGate? && s.gate.Leads(a) {
      HeldLater(s, s', a, Lookup(s.store, a), None);
    } else {
      FollowerStepLogs(s, c, choice);
      CallStepTouches(s, c, choice);
      assert s'.leaders == s.leaders;
      hide CallStep, LeaderKnows, ExcusedOrHeld;
      OthersAccounted(s, s', a);
    }
  }

  /** Appending anything but a request or a discard keeps both laws; a request needs every
      accepted login excused, and a discard a session that was stale. */
  lemma LogLawsKept(s: State, s': State, a: AccountId)
    requires SingleFlight(s.log) && NoLiveDiscard(s.log)
    requires s.log <= s'.log && |s'.log| <= |s.log| + 1
    requires |s'.log| > |s.log| && s'.log[|s.log|].Requested? ==>
               var e := s'.log[|s.log|];
               e.account == a && e.now == s.clock && AllExcused(s, a, e.attempt)
    requires |s'.log| > |s.log| && s'.log[|s.log|].Discarded? ==>
               var e := s'.log[|s.log|];
               e.account == a && e.removed == Lookup(s.store, a) && Stale(s, a, e.attempt, e.readAt)
    ensures SingleFlight(s'.log) && NoLiveDiscard(s'.log)
  {
    forall i: nat, j: nat | IsRequest(s'.log, i, j)
      ensures Excused(s'.log, i, j, s'.log[j].now) || Unseen(s'.log, i, j, s'.log[j].attempt)
    {
      if j < |s.log| {
        assert IsRequest(s.log, i, j);
      } else {
        assert IsAccept(s.log, i, a);
      }
      assert Excused(s.log, i, j, s'.log[j].now) || Unseen(s.log, i, j, s'.log[j].attempt);
      SameLog(s.log, s'.log, i, j, s'.log[j].now, s'.log[j].attempt);
    }
    forall j: nat | j < |s'.log| && s'.log[j].Discarded? && s'.log[j].removed.Some?
      ensures || Faulted(s'.log[..j], s'.log[j].attempt, s'.log[j].account)
              || (s'.log[j].readAt.Some? && s'.log[j].removed.value.ShouldRefresh(s'.log[j].readAt.value))
    {
      if j < |s.log| {
        assert s.log[j].Discarded? && s'.log[..j] == s.log[..j];
      } else {
        assert s'.log[..j] == s.log;
      }
    }
  }

  lemma SameLog(log: seq<Event>, log': seq<Event>, i: nat, j: nat, now: int, u: nat)
    requires log <= log' && i < j <= |log| && log[i].Accepted?
    ensures Excused(log, i, j, now) ==> Excused(log', i, j, now)
    ensures Unseen(log, i, j, u) ==> Unseen(log', i, j, u)
  {
    if Excused(log, i, j, now) {
      var k :| i < k < j && Excuses(log, i, k, now);
      ExcusesLater(log, log', i, k, now, now);
    }
    if Unseen(log, i, j, u) {
      var k :| i < k < j && FaultAt(log[k], u, log[i].account, AtReRead);
      assert log'[k] == log[k];
    }
  }

  /** What a step of `c` logs as saved is its own stamp, and what it stamps is as new as can be. */
  predicate SavesItsStamp(s: State, c: nat, s': State)
    requires c in s.calls
  {
    && s'.clock == s.clock && c in s'.calls && s'.calls[c].account == s.calls[c].account
    && (|s'.log| == |s.log| + 1 && s'.log[|s.log|].Saved? ==>
          LeadsAt(s, c) && StageOf(s, c).Stamped? && s'.log[|s.log|].session == StageOf(s, c).stamped)
    && (LeadsAt(s', c) && StageOf(s', c).Stamped? ==>
          s'.log == s.log && StageOf(s', c).stamped.refreshAt == s.clock + REFRESH_AFTER)
  }

  lemma FlightStepStamps(s: State, c: nat, choice: Choice)
    requires LeadsAt(s, c) && InFlight(StageOf(s, c))
    ensures SavesItsStamp(s, c, LeadStep(s, c, choice))
  {
  }

  lemma QuietStepStamps(s: State, c: nat, choice: Choice)
    requires LeadsAt(s, c) && !InFlight(StageOf(s, c))
    ensures SavesItsStamp(s, c, LeadStep(s, c, choice))
  {
  }

  lemma FollowerStepStamps(s: State, c: nat, choice: Choice)
    requires c in s.calls && !LeadsAt(s, c)
    ensures SavesItsStamp(s, c, CallStep(s, c, choice))
  {
  }

  lemma CallStepStamps(s: State, c: nat, choice: Choice)
    requires c in s.calls
    ensures SavesItsStamp(s, c, CallStep(s, c, choice))
  {
    if !LeadsAt(s, c) {
      FollowerStepStamps(s, c, choice);
    } else if InFlight(StageOf(s, c)) {
      FlightStepStamps(s, c, choice);
    } else {
      QuietStepStamps(s, c, choice);
    }
    hide LeadStep, SavesItsStamp;
  }

  /** Sessions are saved in the order of their refresh times: nothing is saved for an account
      between a leader's stamp and its save, because it is the only leader. */
  lemma CallStepKeepsOrdered(s: State, c: nat, choice: Choice)
    requires Shape(s) && Ordered(s) && c in s.calls
    ensures Ordered(CallStep(s, c, choice))
  {
    hide CallStep, LeadStep;
    var s' := CallStep(s, c, choice);
    assert StampOk(s, c);
    CallStepTouches(s, c, choice);
    CallStepStamps(s, c, choice);
    forall d ensures StampOk(s', d) {
      assert StampOk(s, d);
      if d != c {
        assert Lookup(s'.calls, d) == Lookup(s.calls, d);
        assert LeadsAt(s, d) && LeadsAt(s, c) ==> CallOk(s, d) && CallOk(s, c);
      }
    }
  }

  predicate LogsNeither(s: State, s': State) {
    |s'.log| > |s.log| ==> !s'.log[|s.log|].Requested? && !s'.log[|s.log|].Discarded?
  }

  lemma FlightStepLogs(s: State, c: nat, choice: Choice)
    requires LeadsAt(s, c) && InFlight(StageOf(s, c)) && !StageOf(s, c).Flying?
    ensures LogsNeither(s, LeadStep(s, c, choice))
  {
  }

  lemma QuietStepLogs(s: State, c: nat, choice: Choice)
    requires LeadsAt(s, c) && !InFlight(StageOf(s, c)) && !StageOf(s, c).Settling?
    ensures LogsNeither(s, LeadStep(s, c, choice))
  {
  }

  /** A leader requests only when every accepted login is excused, and discards only what was stale. */
  lemma LeadStepLogs(s: State, c: nat, choice: Choice)
    requires LeadsAt(s, c) && LeaderKnows(s, s.calls[c].account, s.calls[c].pc)
    ensures var s', a := LeadStep(s, c, choice), s.calls[c].account;
            |s'.log| > |s.log| ==>
              var e := s'.log[|s.log|];
              && (e.Requested? ==> e.account == a && e.now == s.clock && AllExcused(s, a, e.attempt))
              && (e.Discarded? ==>
                    e.account == a && e.removed == Lookup(s.store, a) && Stale(s, a, e.attempt, e.readAt))
  {
    hide AllExcused, Stale, ExcusedOrHeld;
    if StageOf(s, c).Flying? {
      assert AllExcused(s, s.calls[c].account, s.calls[c].pc.attempt);
      hide LeaderKnows;
    } else if InFlight(StageOf(s, c)) {
      FlightStepLogs(s, c, choice);
      hide LeadStep, LeaderKnows;
    } else if !StageOf(s, c).Settling? {
      QuietStepLogs(s, c, choice);
      hide LeadStep, LeaderKnows;
    }
  }

  lemma CallStepKeepsLaws(s: State, c: nat, choice: Choice)
    requires Safe(s) && c in s.calls
    ensures SingleFlight(CallStep(s, c, choice).log) && NoLiveDiscard(CallStep(s, c, choice).log)
  {
    var a := s.calls[c].account;
    assert CallOk(s, c) && Accounted(s, a);
    CallStepTouches(s, c, choice);
    if LeadsAt(s, c) {
      LeadStepLogs(s, c, choice);
    } else {
      FollowerStepLogs(s, c, choice);
    }
    hide CallStep, LeadStep, Shape, Accounted, SingleFlight, NoLiveDiscard;
    LogLawsKept(s, CallStep(s, c, choice), a);
  }

  lemma CallStepKeepsSafe(s: State, c: nat, choice: Choice)
    requires Safe(s) && c in s.calls
    ensures Safe(CallStep(s, c, choice))
  {
    var a := s.calls[c].account;
    assert Accounted(s, a);
    CallStepKeepsShape(s, c, choice);
    CallStepTouches(s, c, choice);
    assert StampOk(s, c);
    CallStepAccounted(s, c, choice);
    CallStepKeepsOrdered(s, c, choice);
    TouchedAccounted(s, CallStep(s, c, choice), c, a);
    CallStepKeepsLaws(s, c, choice);
  }

  /** The clock and the arrival of a call disturb nothing. */
  lemma QuietAccounted(s: State, s': State, a: AccountId)
    requires Shape(s) && Accounted(s, a)
    requires s'.store == s.store && s'.leaders == s.leaders && s'.log == s.log && s.clock <= s'.clock
    requires forall c :: c in s.calls ==> c in s'.calls && s'.calls[c] == s.calls[c]
    ensures Accounted(s', a)
  {
    assert AccountOk(s, a);
    OthersAccounted(s, s', a);
  }

  lemma QuietOrdered(s: State, s': State)
    requires Ordered(s) && s'.log == s.log && s.clock <= s'.clock
    requires forall c :: c in s.calls ==> c in s'.calls && s'.calls[c] == s.calls[c]
    requires forall c :: c in s'.calls && c !in s.calls ==> !s'.calls[c].pc.Lead?
    ensures Ordered(s')
  {
    forall c ensures StampOk(s', c) {
      assert StampOk(s, c);
    }
  }

  lemma ApplyKeepsSafe(s: State, act: Action)
    requires Safe(s)
    ensures Safe(Apply(s, act))
  {
    if act.Step? {
      if act.c in s.calls {
        CallStepKeepsSafe(s, act.c, act.choice);
      }
    } else {
      var s' := Apply(s, act);
      ApplyKeepsShape(s, act);
      QuietOrdered(s, s');
      forall a ensures Accounted(s', a) {
        assert Accounted(s, a);
        QuietAccounted(s, s', a);
      }
    }
  }

  lemma InitialIsSafe(s: State)
    requires Initial(s)
    ensures Safe(s)
  {
    forall a ensures AccountOk(s, a) && Accounted(s, a) {
    }
    assert forall c :: StampOk(s, c);
  }

  lemma {:induction false} RunIsSafe(s: State, acts: seq<Action>)
    requires Initial(s)
    ensures Safe(After(s, acts))
  {
    if acts == [] {
      InitialIsSafe(s);
    } else {
      RunIsSafe(s, acts[..|acts| - 1]);
      ApplyKeepsSafe(After(s, acts[..|acts| - 1]), acts[|acts| - 1]);
    }
  }

  /** An excuse is one of four events, two of which need the store to have failed. */
  lemma ExcuseIs(log: seq<Event>, i: nat, k: nat, now: int)
    requires i < k < |log| && log[i].Accepted?
    ensures var a := log[i].account;
            Excuses(log, i, k, now) ==>
              || (SavedBy(log, i, k) && log[k].session.ShouldRefresh(now))
              || (log[k] == LoggedOut(a) && SavedBefore(log, i, k))
              || FaultAt(log[k], log[i].attempt, a, AtSave)
              || (log[k].Discarded? && log[k].account == a && log[k].removed.Some?
                  && Faulted(log[..k], log[k].attempt, a) && SavedBefore(log, i, k)
                  && exists m :: 0 <= m < k && log[m].StoreFault? && log[m].account == a)
  {
    if log[k].Discarded? && Excuses(log, i, k, now) {
      var before := log[..k];
      var m :| 0 <= m < k && before[m].StoreFault? && before[m].account == log[i].account;
      assert log[m] == before[m];
    }
  }

  /** In every run: between the acceptance of a login and a later request for the same account,
      the accepted login's own session was saved, and is due for refresh when the request goes out
      or was cleared by a Logout after that; or its save failed; or it was saved and then an attempt
      the store had failed discarded what was held; or the store failed the requesting attempt's own
      re-read. With a store that never failed for the account, one of the first two. */
  lemma OneRequestPerSession(s: State, acts: seq<Action>, i: nat, j: nat)
    requires Initial(s)
    requires var log := After(s, acts).log;
             i < j < |log| && log[i].Accepted? && log[j].Requested? && log[j].account == log[i].account
    ensures var log := After(s, acts).log;
            var a := log[i].account;
            exists k :: i < k < j &&
              (|| (SavedBy(log, i, k) && log[k].session.ShouldRefresh(log[j].now))
               || (log[k] == LoggedOut(a) && SavedBefore(log, i, k))
               || FaultAt(log[k], log[i].attempt, a, AtSave)
               || (log[k].Discarded? && log[k].account == a && log[k].removed.Some?
                   && Faulted(log[..k], log[k].attempt, a) && SavedBefore(log, i, k))
               || FaultAt(log[k], log[j].attempt, a, AtReRead))
    ensures var log := After(s, acts).log;
            var a := log[i].account;
            (forall k :: 0 <= k < j && log[k].StoreFault? ==> log[k].account != a) ==>
            exists k :: i < k < j &&
              (|| (SavedBy(log, i, k) && log[k].session.ShouldRefresh(log[j].now))
               || (log[k] == LoggedOut(a) && SavedBefore(log, i, k)))
  {
    var log := After(s, acts).log;
    RunIsSafe(s, acts);
    assert SingleFlight(log);
    assert IsRequest(log, i, j);
    hide Safe, SingleFlight, After;
    var k :| i < k < j && (|| Excuses(log, i, k, log[j].now)
                           || FaultAt(log[k], log[j].attempt, log[i].account, AtReRead));
    ExcuseIs(log, i, k, log[j].now);
    hide Excuses;
  }

  /** In every run: a discarded session was already due for refresh when the leader that
      discarded it read the store, unless the store failed on that leader. */
  lemma DiscardsOnlyDeadSessions(s: State, acts: seq<Action>, j: nat)
    requires Initial(s)
    requires var log := After(s, acts).log; j < |log| && log[j].Discarded? && log[j].removed.Some?
    ensures var log := After(s, acts).log;
            || Faulted(log[..j], log[j].attempt, log[j].account)
            || (log[j].readAt.Some? && log[j].removed.value.ShouldRefresh(log[j].readAt.value))
  {
    RunIsSafe(s, acts);
  }

  /** In every run: one leader per account, and no leader waits on the inner flight. */
  lemma OneLeaderPerAccount(s: State, acts: seq<Action>, c: nat, d: nat)
    requires Initial(s)
    requires var s' := After(s, acts);
             LeadsAt(s', c) && LeadsAt(s', d) && s'.calls[c].account == s'.calls[d].account
    ensures c == d
    ensures !StageOf(After(s, acts), c).InnerJoined? && !StageOf(After(s, acts), c).InnerWoken?
  {
    RunIsSafe(s, acts);
    assert CallOk(After(s, acts), c) && CallOk(After(s, acts), d);
  }

  /** In every run: `pending` and `flights` have the same accounts, and in either layer a channel
      is open while it is its account's current one and has been closed exactly once otherwise. */
  lemma ChannelsClosedOnce(s: State, acts: seq<Action>)
    requires Initial(s)
    ensures var s' := After(s, acts);
            && s'.tm.pending.Keys == s'.tm.flights.Keys
            && (forall ch :: 0 <= ch < |s'.tm.channels| ==>
                  s'.tm.channels[ch].closes == if s'.tm.Running(ch) then 0 else 1)
            && (forall t :: 0 <= t < |s'.gate.attempts| ==>
                  s'.gate.attempts[t].closes == if s'.gate.Running(t) then 0 else 1)
  {
    RunIsSafe(s, acts);
  }

  /** In every run: no joiner is left behind. The attempt it joined is led by a call that has not
      returned, and whose own steps publish it (LoginProgress.LeadersFinish), or has been published. */
  lemma JoinersAreServed(s: State, acts: seq<Action>, c: nat)
    requires Initial(s)
    requires var s' := After(s, acts); c in s'.calls && s'.calls[c].pc.Joined?
    ensures var s' := After(s, acts);
            var t, a := s'.calls[c].pc.attempt, s'.calls[c].account;
            && t < |s'.gate.attempts|
            && (s'.gate.attempts[t].closes == 0 ==>
                  && a in s'.leaders && LeadsAt(s', s'.leaders[a])
                  && s'.calls[s'.leaders[a]].account == a && s'.calls[s'.leaders[a]].pc.attempt == t)
            && (s'.gate.attempts[t].closes != 0 ==>
                  var done := Apply(s', Step(c, Choice(None, Token(""), false)));
                  c in done.calls
                  && done.calls[c].pc == Finished(Some(t), Delivered(s'.gate.attempts[t].outcome)))
  {
    RunIsSafe(s, acts);
    var s' := After(s, acts);
    assert CallOk(s', c) && AccountOk(s', s'.calls[c].account);
  }

  /** In every run: all calls that led or joined one attempt return the same result. */
  lemma JoinersShareTheOutcome(s: State, acts: seq<Action>, c: nat, d: nat)
    requires Initial(s)
    requires var s' := After(s, acts);
             && c in s'.calls && s'.calls[c].pc.Finished? && s'.calls[c].pc.via.Some?
             && d in s'.calls && s'.calls[d].pc.Finished? && s'.calls[d].pc.via == s'.calls[c].pc.via
    ensures var s' := After(s, acts);
            && s'.calls[c].pc.result == s'.calls[d].pc.result
            && s'.calls[c].account == s'.calls[d].account
  {
    RunIsSafe(s, acts);
    assert CallOk(After(s, acts), c) && CallOk(After(s, acts), d);
  }
}
