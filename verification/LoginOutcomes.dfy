/** When a login succeeds, and with which error it fails: the outcome an attempt publishes is the one
    its events in the log earned. */
module LoginOutcomes {
  import opened Prelude
  import opened Auth
  import opened LoginGate
  import opened LoginProtocol
  import opened LoginShape
  import opened LoginSafety
  import opened LoginStory

  type Store = map<AccountId, Session>

  /** The store holds what the log says, for every account. */
  ghost predicate StoreLogged(store: Store, s: State) {
    forall a {:trigger HeldAfter(store, s.log, a)} :: Lookup(s.store, a) == HeldAfter(store, s.log, a)
  }

  /** Where a leader is matches how far the log says its attempt has come. */
  predicate Matches(stage: Stage, st: Story, held: Option<Session>, a: AccountId) {
    match stage
    case ReReading => st == Unread
    case ReRead(seen) => st == Saw(seen)
    case InnerBeginning => st == Due
    case InnerJoined(_) => true
    case InnerWoken => true
    case Flying(_) => st == Due
    case Sent(_) => st == Asked
    case Tokened(_, token) => st == Acked(token)
    case Stamped(_, x) => st == Acked(x.token) && x.accountId == a
    case Stored(_) => st.Filed? && held == if st.gone then None else Some(st.session)
    case Ending(_, o) => st == Decided(o)
    case Settling(o) => st == Decided(o)
    case Publishing(o) => Final(st, o)
  }

  predicate LeadTells(store: Store, s: State, c: nat)
    requires LeadsAt(s, c)
  {
    var a := s.calls[c].account;
    Matches(StageOf(s, c), Told(store, s.log, s.calls[c].pc.attempt, a), Lookup(s.store, a), a)
  }

  predicate AttemptTells(store: Store, s: State, t: nat) {
    t < |s.gate.attempts| && s.gate.attempts[t].closes > 0 ==>
      Final(Told(store, s.log, t, s.gate.attempts[t].account), s.gate.attempts[t].outcome)
  }

  /** Only attempts that were started have events. */
  ghost predicate Started(log: seq<Event>, n: nat) {
    forall k, t: nat {:trigger OfAttempt(log[k], t)} :: 0 <= k < |log| && OfAttempt(log[k], t) ==> t < n
  }

  ghost predicate Tells(store: Store, s: State) {
    && StoreLogged(store, s)
    && Started(s.log, |s.gate.attempts|)
    && (forall c {:trigger LeadTells(store, s, c)} :: LeadsAt(s, c) ==> LeadTells(store, s, c))
    && (forall t {:trigger AttemptTells(store, s, t)} :: AttemptTells(store, s, t))
  }

  lemma {:induction false} UnstartedIsUnread(store: Store, log: seq<Event>, t: nat, a: AccountId)
    requires Started(log, t)
    ensures Told(store, log, t, a) == Unread
  {
    if log != [] {
      var init := log[..|log| - 1];
      assert Started(init, t) by {
        forall k, u: nat | 0 <= k < |init| && OfAttempt(init[k], u) ensures u < t {
          assert OfAttempt(log[k], u);
        }
      }
      UnstartedIsUnread(store, init, t, a);
    }
  }

  // ---- what one step logs ----

  /** What a step of `c` puts into the log: at most one event, of its own account and, if it leads,
      of its own attempt; and the store changes as the event says. */
  ghost predicate Logs(s: State, s': State, c: nat)
    requires c in s.calls
  {
    if s'.log == s.log then s'.store == s.store
    else
      && |s'.log| == |s.log| + 1 && s'.log == s.log + [s'.log[|s.log|]]
      && var e, a := s'.log[|s.log|], s.calls[c].account;
         && e.account == a
         && (forall t: nat {:trigger OfAttempt(e, t)} :: OfAttempt(e, t) ==>
               LeadsAt(s, c) && t == s.calls[c].pc.attempt)
         && s'.store == match e
                        case Saved(_, b, x) => s.store[b := x]
                        case Discarded(_, b, _, _) => s.store - {b}
                        case LoggedOut(b) => s.store - {b}
                        case _ => s.store
  }

  lemma FlightLogs(s: State, c: nat, choice: Choice)
    requires LeadsAt(s, c) && InFlight(StageOf(s, c))
    ensures Logs(s, LeadStep(s, c, choice), c)
  {
  }

  lemma QuietLogs(s: State, c: nat, choice: Choice)
    requires LeadsAt(s, c) && !InFlight(StageOf(s, c))
    ensures Logs(s, LeadStep(s, c, choice), c)
  {
  }

  lemma EnterLogs(s: State, c: nat)
    requires c in s.calls
    ensures Logs(s, Enter(s, c), c)
  {
  }

  lemma LogoutLogs(s: State, c: nat, choice: Choice)
    requires c in s.calls && !LeadsAt(s, c)
    ensures Logs(s, LogoutRead(s, c, choice.fault), c)
    ensures Logs(s, LogoutReceive(s, c, choice.reply), c)
    ensures Logs(s, LogoutClear(s, c, choice.fault), c)
  {
  }

  lemma PlainLogs(s: State, c: nat, choice: Choice)
    requires c in s.calls && !LeadsAt(s, c) && !s.calls[c].pc.AtGate?
    requires var pc := s.calls[c].pc; !pc.LogoutReading? && !pc.LogoutSent? && !pc.LogoutClearing?
    ensures Logs(s, CallStep(s, c, choice), c)
  {
    hide Enter, LeadStep, LogoutRead, LogoutReceive, LogoutClear;
  }

  lemma FollowerLogs(s: State, c: nat, choice: Choice)
    requires c in s.calls && !LeadsAt(s, c)
    ensures Logs(s, CallStep(s, c, choice), c)
  {
    hide Enter, LeadStep, LogoutRead, LogoutReceive, LogoutClear, Await, Logs;
    var pc := s.calls[c].pc;
    if pc.AtGate? {
      EnterLogs(s, c);
    } else if pc.LogoutReading? || pc.LogoutSent? || pc.LogoutClearing? {
      LogoutLogs(s, c, choice);
    } else {
      PlainLogs(s, c, choice);
    }
  }

  lemma CallStepLogs(s: State, c: nat, choice: Choice)
    requires c in s.calls
    ensures Logs(s, CallStep(s, c, choice), c)
  {
    if !LeadsAt(s, c) {
      FollowerLogs(s, c, choice);
    } else if InFlight(StageOf(s, c)) {
      FlightLogs(s, c, choice);
    } else {
      QuietLogs(s, c, choice);
    }
    hide Logs, LeadStep;
  }

  lemma HeldNext(store: Store, log: seq<Event>, e: Event, a: AccountId)
    ensures HeldAfter(store, log + [e], a) ==
            match e
            case Saved(_, b, x) => if b == a then Some(x) else HeldAfter(store, log, a)
            case Discarded(_, b, _, _) => if b == a then None else HeldAfter(store, log, a)
            case LoggedOut(b) => if b == a then None else HeldAfter(store, log, a)
            case _ => HeldAfter(store, log, a)
  {
    assert (log + [e])[..|log|] == log;
  }

  lemma StoryNext(store: Store, log: seq<Event>, e: Event, t: nat, a: AccountId)
    ensures Told(store, log + [e], t, a) == Next(Told(store, log, t, a), HeldAfter(store, log, a), e, t, a)
  {
    assert (log + [e])[..|log|] == log;
  }

  lemma StepKeepsStore(store: Store, s: State, s': State, c: nat)
    requires c in s.calls && StoreLogged(store, s) && Logs(s, s', c)
    ensures StoreLogged(store, s')
  {
    forall a ensures Lookup(s'.store, a) == HeldAfter(store, s'.log, a) {
      assert Lookup(s.store, a) == HeldAfter(store, s.log, a);
      if s'.log != s.log {
        HeldNext(store, s.log, s'.log[|s.log|], a);
      }
    }
  }

  // ---- the leader itself ----

  /** A leader that logs an event of its own stays in step with its story. */
  lemma NotedTells(store: Store, s: State, s': State, c: nat, e: Event)
    requires LeadsAt(s, c) && LeadsAt(s', c) && s'.log == s.log + [e] && OfAttempt(e, s.calls[c].pc.attempt)
    requires s'.calls[c].account == s.calls[c].account && s'.calls[c].pc.attempt == s.calls[c].pc.attempt
    requires var t, a := s.calls[c].pc.attempt, s.calls[c].account;
             Matches(StageOf(s', c), Own(Told(store, s.log, t, a), HeldAfter(store, s.log, a), e, a),
                     Lookup(s'.store, a), a)
    ensures LeadTells(store, s', c)
  {
    StoryNext(store, s.log, e, s.calls[c].pc.attempt, s.calls[c].account);
    hide Told, HeldAfter, Own, Matches;
  }

  /** The steps of a leader on the values they turn on. */
  lemma ReadMatches(t: nat, a: AccountId, held: Option<Session>, e: Error, now: int)
    ensures Own(Unread, held, LeaderRead(t, a), a) == Saw(held)
    ensures Own(Unread, held, StoreFault(t, a, AtReRead, e), a) == Due
    ensures forall seen :: Own(Saw(seen), held, LeaderChecked(t, a, now), a) ==
                           if Live(seen, now) then Decided(Success(seen.value)) else Due
  {
  }

  lemma WireMatches(t: nat, a: AccountId, held: Option<Session>, e: Error, token: string, now: int)
    ensures Own(Due, held, EncryptFailed(t, a, e), a) == Decided(Failure(e))
    ensures Own(Due, held, Requested(t, a, now), a) == Asked
    ensures Own(Asked, held, Refused(t, a, e), a) == Decided(Failure(e))
    ensures Own(Asked, held, Accepted(t, a, token), a) == Acked(token)
  {
  }

  lemma SaveMatches(t: nat, a: AccountId, held: Option<Session>, e: Error, x: Session, gone: bool)
    ensures Own(Acked(x.token), held, StoreFault(t, a, AtSave, e), a) == Decided(Failure(e))
    ensures x.accountId == a ==> Own(Acked(x.token), held, Saved(t, a, x), a) == Filed(x, false)
    ensures Own(Filed(x, gone), held, StoreFault(t, a, AtReadBack, e), a) == Decided(Failure(e))
    ensures Own(Filed(x, gone), held, ReadAgain(t, a), a) ==
            Decided(if gone then Failure(SessionNotStored) else Success(x))
  {
  }

  lemma SettleMatches(t: nat, a: AccountId, held: Option<Session>, o: Outcome, readAt: Option<int>)
    requires Unusable(o)
    ensures Own(Decided(o), held, DiscardFailed(t, a), a) == Closed(o)
    ensures Own(Decided(o), held, Discarded(t, a, held, readAt), a) == Closed(o)
  {
  }

  lemma LeadReadTells(store: Store, s: State, c: nat, fault: Option<Error>)
    requires LeadsAt(s, c) && StageOf(s, c).ReReading? && LeadTells(store, s, c)
    requires Lookup(s.store, s.calls[c].account) == HeldAfter(store, s.log, s.calls[c].account)
    ensures LeadTells(store, LeadRead(s, c, fault), c)
  {
    hide Told, HeldAfter, Own;
    var t, a, s' := s.calls[c].pc.attempt, s.calls[c].account, LeadRead(s, c, fault);
    var held := HeldAfter(store, s.log, a);
    ReadMatches(t, a, held, if fault.Some? then fault.value else ContextDone, s.clock);
    NotedTells(store, s, s', c, if fault.Some? then StoreFault(t, a, AtReRead, fault.value) else LeaderRead(t, a));
    hide LeadTells;
  }

  lemma LeadClockTells(store: Store, s: State, c: nat)
    requires LeadsAt(s, c) && StageOf(s, c).ReRead? && LeadTells(store, s, c)
    ensures LeadTells(store, LeadClock(s, c), c)
  {
    hide Told, HeldAfter, Own;
    var t, a, s' := s.calls[c].pc.attempt, s.calls[c].account, LeadClock(s, c);
    var held := HeldAfter(store, s.log, a);
    ReadMatches(t, a, held, ContextDone, s.clock);
    NotedTells(store, s, s', c, LeaderChecked(t, a, s.clock));
    hide LeadTells;
  }

  lemma SendTells(store: Store, s: State, c: nat, fault: Option<Error>)
    requires LeadsAt(s, c) && StageOf(s, c).Flying? && LeadTells(store, s, c)
    ensures LeadTells(store, Send(s, c, fault), c)
  {
    hide Told, HeldAfter, Own;
    var t, a, s' := s.calls[c].pc.attempt, s.calls[c].account, Send(s, c, fault);
    var held := HeldAfter(store, s.log, a);
    WireMatches(t, a, held, if fault.Some? then fault.value else ContextDone, "", s.clock);
    NotedTells(store, s, s', c, if fault.Some? then EncryptFailed(t, a, fault.value) else Requested(t, a, s.clock));
    hide LeadTells;
  }

  lemma ReceiveTells(store: Store, s: State, c: nat, reply: Reply)
    requires LeadsAt(s, c) && StageOf(s, c).Sent? && LeadTells(store, s, c)
    ensures LeadTells(store, Receive(s, c, reply), c)
  {
    hide Told, HeldAfter, Own;
    var t, a, s' := s.calls[c].pc.attempt, s.calls[c].account, Receive(s, c, reply);
    var held := HeldAfter(store, s.log, a);
    WireMatches(t, a, held, if reply.Rejected? then reply.error else ContextDone,
                if reply.Token? then reply.token else "", s.clock);
    NotedTells(store, s, s', c, if reply.Rejected? then Refused(t, a, reply.error) else Accepted(t, a, reply.token));
    hide LeadTells;
  }

  lemma SaveTells(store: Store, s: State, c: nat, fault: Option<Error>)
    requires LeadsAt(s, c) && StageOf(s, c).Stamped? && LeadTells(store, s, c)
    ensures LeadTells(store, Save(s, c, fault), c)
  {
    hide Told, HeldAfter, Own;
    var t, a, s' := s.calls[c].pc.attempt, s.calls[c].account, Save(s, c, fault);
    var held := HeldAfter(store, s.log, a);
    SaveMatches(t, a, held, if fault.Some? then fault.value else ContextDone, StageOf(s, c).stamped, false);
    NotedTells(store, s, s', c,
               if fault.Some? then StoreFault(t, a, AtSave, fault.value) else Saved(t, a, StageOf(s, c).stamped));
    hide LeadTells;
  }

  lemma ReadBackTells(store: Store, s: State, c: nat, fault: Option<Error>)
    requires LeadsAt(s, c) && StageOf(s, c).Stored? && LeadTells(store, s, c)
    ensures LeadTells(store, ReadBack(s, c, fault), c)
  {
    hide Told, HeldAfter, Own;
    var t, a, s' := s.calls[c].pc.attempt, s.calls[c].account, ReadBack(s, c, fault);
    var held := HeldAfter(store, s.log, a);
    var st := Told(store, s.log, t, a);
    SaveMatches(t, a, held, if fault.Some? then fault.value else ContextDone, st.session, st.gone);
    NotedTells(store, s, s', c, if fault.Some? then StoreFault(t, a, AtReadBack, fault.value) else ReadAgain(t, a));
    hide LeadTells;
  }

  lemma SettleTells(store: Store, s: State, c: nat, fault: Option<Error>)
    requires LeadsAt(s, c) && StageOf(s, c).Settling? && LeadTells(store, s, c)
    requires Lookup(s.store, s.calls[c].account) == HeldAfter(store, s.log, s.calls[c].account)
    ensures LeadTells(store, Settle(s, c, fault), c)
  {
    hide Told, HeldAfter, Own;
    var t, a, s' := s.calls[c].pc.attempt, s.calls[c].account, Settle(s, c, fault);
    var o, held, readAt := StageOf(s, c).outcome, HeldAfter(store, s.log, a), s.calls[c].pc.readAt;
    if Unusable(o) {
      SettleMatches(t, a, held, o, readAt);
      NotedTells(store, s, s', c, if fault.Some? then DiscardFailed(t, a) else Discarded(t, a, held, readAt));
      hide LeadTells;
    }
  }

  lemma SilentTells(store: Store, s: State, c: nat)
    requires LeadsAt(s, c) && LeadTells(store, s, c)
    ensures StageOf(s, c).InnerBeginning? ==> LeadTells(store, InnerBegin(s, c), c)
    ensures StageOf(s, c).Tokened? ==> LeadTells(store, Stamp(s, c), c)
    ensures StageOf(s, c).Ending? ==> LeadTells(store, End(s, c), c)
  {
    hide Told;
  }

  lemma LeadStepTells(store: Store, s: State, c: nat, choice: Choice)
    requires Shape(s) && StoreLogged(store, s) && LeadsAt(s, c) && LeadTells(store, s, c)
    ensures var s' := LeadStep(s, c, choice); LeadsAt(s', c) ==> LeadTells(store, s', c)
  {
    assert CallOk(s, c);
    assert Lookup(s.store, s.calls[c].account) == HeldAfter(store, s.log, s.calls[c].account);
    hide Shape, StoreLogged, LeadTells, LeadRead, LeadClock, InnerBegin, Send, Receive, Stamp, Save, ReadBack;
    hide End, Settle, HeldAfter;
    match StageOf(s, c)
    case ReReading => LeadReadTells(store, s, c, choice.fault);
    case ReRead(_) => LeadClockTells(store, s, c);
    case InnerBeginning => SilentTells(store, s, c);
    case Flying(_) => SendTells(store, s, c, choice.fault);
    case Sent(_) => ReceiveTells(store, s, c, choice.reply);
    case Tokened(_, _) => SilentTells(store, s, c);
    case Stamped(_, _) => SaveTells(store, s, c, choice.fault);
    case Stored(_) => ReadBackTells(store, s, c, choice.fault);
    case Ending(_, _) => SilentTells(store, s, c);
    case Settling(_) => SettleTells(store, s, c, choice.fault);
    case _ =>
  }

  // ---- everyone else ----

  /** An attempt that the step of `c` is not of goes nowhere, unless a Logout clears what it saved. */
  lemma OtherStory(store: Store, s: State, s': State, c: nat, t: nat, b: AccountId)
    requires c in s.calls && Logs(s, s', c) && (LeadsAt(s, c) ==> t != s.calls[c].pc.attempt)
    ensures var st, st' := Told(store, s.log, t, b), Told(store, s'.log, t, b);
            st' == if st.Filed? && s'.log != s.log && s'.log[|s.log|] == LoggedOut(b) then st.(gone := true) else st
  {
    if s'.log != s.log {
      StoryNext(store, s.log, s'.log[|s.log|], t, b);
    }
    hide Told, HeldAfter;
  }

  /** Nor does the store entry of another leader's account change, but by a Logout. */
  lemma OtherHeld(s: State, s': State, c: nat, b: AccountId)
    requires c in s.calls && Logs(s, s', c) && (LeadsAt(s, c) ==> s.calls[c].account != b)
    ensures Lookup(s'.store, b) ==
            if s'.log != s.log && s'.log[|s.log|] == LoggedOut(b) then None else Lookup(s.store, b)
  {
    if s'.log != s.log {
      var e := s'.log[|s.log|];
      assert e.Saved? || e.Discarded? ==> OfAttempt(e, e.attempt);
    }
  }

  lemma TwoLeaders(s: State, c: nat, d: nat)
    requires Shape(s) && LeadsAt(s, c) && LeadsAt(s, d) && c != d
    ensures s.calls[c].account != s.calls[d].account && s.calls[c].pc.attempt != s.calls[d].pc.attempt
  {
    assert CallOk(s, c) && CallOk(s, d);
    assert AccountOk(s, s.calls[c].account) && AccountOk(s, s.calls[d].account);
  }

  lemma OtherLeaderTells(store: Store, s: State, s': State, c: nat, d: nat)
    requires Shape(s) && c in s.calls && Logs(s, s', c) && d != c && LeadsAt(s, d) && LeadTells(store, s, d)
    requires d in s'.calls && s'.calls[d] == s.calls[d]
    ensures LeadTells(store, s', d)
  {
    hide Shape, Logs, Told, HeldAfter;
    var t, b := s.calls[d].pc.attempt, s.calls[d].account;
    if LeadsAt(s, c) {
      TwoLeaders(s, c, d);
    }
    OtherStory(store, s, s', c, t, b);
    OtherHeld(s, s', c, b);
  }

  /** An attempt that had published stays told, for the step is not of it. */
  lemma PublishedTells(store: Store, s: State, s': State, c: nat, t: nat)
    requires Shape(s) && c in s.calls && Logs(s, s', c) && AttemptTells(store, s, t)
    requires t < |s.gate.attempts| && t < |s'.gate.attempts| && s.gate.attempts[t].closes > 0
    requires s'.gate.attempts[t] == s.gate.attempts[t].(waiting := s'.gate.attempts[t].waiting)
    ensures AttemptTells(store, s', t)
  {
    if LeadsAt(s, c) {
      assert CallOk(s, c) && AccountOk(s, s.calls[c].account);
      assert t != s.calls[c].pc.attempt;
    }
    hide Shape;
    OtherStory(store, s, s', c, t, s.gate.attempts[t].account);
    hide Told;
  }

  /** What a step may do to the gate. */
  predicate GateMoves(s: State, s': State, c: nat)
    requires c in s.calls
  {
    if s.calls[c].pc.AtGate? then s'.gate == s.gate.Begin(s.calls[c].account)
    else if LeadsAt(s, c) && StageOf(s, c).Publishing? then
      && s'.gate == s.gate.Publish(s.calls[c].account, s.calls[c].pc.attempt, StageOf(s, c).outcome)
      && s'.log == s.log
    else s'.gate == s.gate
  }

  lemma LeadStepGate(s: State, c: nat, choice: Choice)
    requires LeadsAt(s, c)
    ensures GateMoves(s, LeadStep(s, c, choice), c)
  {
  }

  lemma FollowerStepGate(s: State, c: nat, choice: Choice)
    requires c in s.calls && !LeadsAt(s, c)
    ensures GateMoves(s, CallStep(s, c, choice), c)
  {
  }

  lemma CallStepGate(s: State, c: nat, choice: Choice)
    requires c in s.calls
    ensures GateMoves(s, CallStep(s, c, choice), c)
  {
    if LeadsAt(s, c) {
      LeadStepGate(s, c, choice);
    } else {
      FollowerStepGate(s, c, choice);
    }
    hide LeadStep, GateMoves;
  }

  lemma AttemptStepTells(store: Store, s: State, s': State, c: nat, t: nat)
    requires Shape(s) && c in s.calls && Logs(s, s', c) && GateMoves(s, s', c) && AttemptTells(store, s, t)
    requires LeadsAt(s, c) ==> LeadTells(store, s, c)
    ensures AttemptTells(store, s', t)
  {
    var a, n := s.calls[c].account, |s.gate.attempts|;
    if LeadsAt(s, c) {
      assert CallOk(s, c) && AccountOk(s, a);
    }
    if LeadsAt(s, c) && StageOf(s, c).Publishing? && t == s.calls[c].pc.attempt {
      hide Told;
    } else if t < n && s.gate.attempts[t].closes > 0 {
      hide Logs;
      PublishedTells(store, s, s', c, t);
    }
  }

  lemma StepStarted(s: State, s': State, c: nat)
    requires Shape(s) && c in s.calls && Logs(s, s', c) && |s.gate.attempts| <= |s'.gate.attempts|
    requires Started(s.log, |s.gate.attempts|)
    ensures Started(s'.log, |s'.gate.attempts|)
  {
    if LeadsAt(s, c) {
      assert CallOk(s, c) && AccountOk(s, s.calls[c].account);
      assert s.calls[c].pc.attempt < |s.gate.attempts|;
    }
    hide Shape;
    forall k, t: nat | 0 <= k < |s'.log| && OfAttempt(s'.log[k], t) ensures t < |s'.gate.attempts| {
      assert k < |s.log| ==> OfAttempt(s.log[k], t);
    }
  }

  /** A call that has just been let through the gate has an untold attempt. */
  lemma EnterTells(store: Store, s: State, c: nat)
    requires c in s.calls && Started(s.log, |s.gate.attempts|)
    ensures LeadsAt(Enter(s, c), c) ==> LeadTells(store, Enter(s, c), c)
  {
    UnstartedIsUnread(store, s.log, |s.gate.attempts|, s.calls[c].account);
    hide Told;
  }

  lemma OwnStepTells(store: Store, s: State, c: nat, choice: Choice)
    requires Shape(s) && Tells(store, s) && c in s.calls
    ensures var s' := CallStep(s, c, choice); LeadsAt(s', c) ==> LeadTells(store, s', c)
  {
    if LeadsAt(s, c) {
      assert LeadTells(store, s, c);
      LeadStepTells(store, s, c, choice);
    } else if s.calls[c].pc.AtGate? {
      EnterTells(store, s, c);
    } else {
      assert CallOk(s, c) && s.gate.Valid();
      FollowerStepFollows(s, c, choice);
      hide CallStep;
    }
    hide LeadStep, Enter, LeadTells, Shape, Tells;
  }

  lemma CallStepTells(store: Store, s: State, c: nat, choice: Choice)
    requires Shape(s) && Tells(store, s) && c in s.calls
    ensures Tells(store, CallStep(s, c, choice))
  {
    var s' := CallStep(s, c, choice);
    CallStepLogs(s, c, choice);
    CallStepGate(s, c, choice);
    CallStepTouches(s, c, choice);
    OwnStepTells(store, s, c, choice);
    hide CallStep, Shape, LeadTells, AttemptTells, Logs;
    StepKeepsStore(store, s, s', c);
    StepStarted(s, s', c);
    forall d | LeadsAt(s', d) ensures LeadTells(store, s', d) {
      if d != c {
        assert Lookup(s'.calls, d) == Lookup(s.calls, d);
        assert LeadTells(store, s, d);
        OtherLeaderTells(store, s, s', c, d);
      }
    }
    forall t ensures AttemptTells(store, s', t) {
      assert AttemptTells(store, s, t);
      assert LeadsAt(s, c) ==> LeadTells(store, s, c);
      AttemptStepTells(store, s, s', c, t);
    }
  }

  lemma ApplyTells(store: Store, s: State, act: Action)
    requires Shape(s) && Tells(store, s)
    ensures Tells(store, Apply(s, act))
  {
    hide Shape, CallStep, Told, HeldAfter;
    if act.Step? {
      if act.c in s.calls {
        CallStepTells(store, s, act.c, act.choice);
      }
    } else {
      var s' := Apply(s, act);
      forall a ensures Lookup(s'.store, a) == HeldAfter(store, s'.log, a) {
        assert Lookup(s.store, a) == HeldAfter(store, s.log, a);
      }
      forall d | LeadsAt(s', d) ensures LeadTells(store, s', d) { assert LeadTells(store, s, d); }
      forall t ensures AttemptTells(store, s', t) { assert AttemptTells(store, s, t); }
    }
  }

  lemma {:induction false} RunTells(s: State, acts: seq<Action>)
    requires Initial(s)
    ensures Tells(s.store, After(s, acts))
  {
    if acts != [] {
      var init := acts[..|acts| - 1];
      RunTells(s, init);
      RunIsSafe(s, init);
      ApplyTells(s.store, After(s, init), acts[|acts| - 1]);
      hide Apply, Tells;
    }
  }

  // ---- the results ----

  /** In every run: the outcome an attempt has published is `o` if and only if an event earned it
      `o`. So it succeeded with `x` exactly when its leader's re-read found `x` live, or it was
      accepted, saved `x` with the token it was given, and read it back without a fault and with no
      Logout in between; and otherwise it failed with the error the encryption, the Gateway, the
      save or the read-back met, or because the session was gone. */
  lemma OutcomeIsEarned(s: State, acts: seq<Action>, t: nat, o: Outcome)
    requires Initial(s)
    requires var g := After(s, acts).gate; t < |g.attempts| && g.attempts[t].closes > 0
    ensures var s' := After(s, acts);
            var a := s'.gate.attempts[t].account;
            (exists k: nat :: Earns(s.store, s'.log, t, a, k, o)) <==> o == s'.gate.attempts[t].outcome
  {
    var s' := After(s, acts);
    RunTells(s, acts);
    assert AttemptTells(s.store, s', t);
    hide After, Earns, Told;
    FinalIff(s.store, s'.log, t, s'.gate.attempts[t].account, s'.gate.attempts[t].outcome, o);
  }

  /** In every run: the store holds for each account what was last saved, unless it was discarded or
      cleared by a Logout since; and nothing but that. */
  lemma StoreIsLogged(s: State, acts: seq<Action>, a: AccountId)
    requires Initial(s)
    ensures var s' := After(s, acts); Lookup(s'.store, a) == HeldAfter(s.store, s'.log, a)
  {
    RunTells(s, acts);
    assert Lookup(After(s, acts).store, a) == HeldAfter(s.store, After(s, acts).log, a);
  }

  predicate NoSave(log: seq<Event>, a: AccountId) {
    forall k :: 0 <= k < |log| && log[k].Saved? ==> log[k].account != a
  }

  /** What is out of the store stays out until something is saved. */
  lemma {:induction false} StaysOut(store: Store, log: seq<Event>, n: nat, a: AccountId)
    requires n <= |log| && HeldAfter(store, log[..n], a).None?
    ensures NoSave(log[n..], a) ==> HeldAfter(store, log, a).None?
    decreases |log|
  {
    if n == |log| {
      assert log[..n] == log;
    } else {
      var init, tail := log[..|log| - 1], log[n..];
      assert init[..n] == log[..n];
      StaysOut(store, init, n, a);
      assert init[n..] == tail[..|tail| - 1] && log[|log| - 1] == tail[|tail| - 1];
    }
  }

  /** The attempt discarded what the store held for `a` at `m`. */
  predicate DiscardedAt(log: seq<Event>, t: nat, a: AccountId, m: nat) {
    m < |log| && log[m].Discarded? && log[m].attempt == t && log[m].account == a
  }

  lemma DiscardClears(store: Store, log: seq<Event>, t: nat, a: AccountId, m: nat)
    requires DiscardedAt(log, t, a, m)
    ensures NoSave(log[m + 1..], a) ==> HeldAfter(store, log, a).None?
  {
    assert log[..m + 1][..m] == log[..m];
    StaysOut(store, log, m + 1, a);
  }

  /** In every run: an attempt has failed with an error of the account category if and only if its
      leader discarded what the store held, or the store failed it in that; and after a discard the
      account is out of the store until something is saved for it. */
  lemma UnusableIsDiscarded(s: State, acts: seq<Action>, t: nat)
    requires Initial(s)
    requires var g := After(s, acts).gate; t < |g.attempts| && g.attempts[t].closes > 0
    ensures var s' := After(s, acts);
            var Attempt(a, _, o, _) := s'.gate.attempts[t];
            && (Unusable(o) <==> DiscardFailed(t, a) in s'.log || exists m: nat :: DiscardedAt(s'.log, t, a, m))
            && (forall m: nat {:trigger DiscardedAt(s'.log, t, a, m)} ::
                  DiscardedAt(s'.log, t, a, m) && NoSave(s'.log[m + 1..], a) ==> a !in s'.store)
  {
    var s' := After(s, acts);
    var a, o := s'.gate.attempts[t].account, s'.gate.attempts[t].outcome;
    RunTells(s, acts);
    assert AttemptTells(s.store, s', t);
    StoreIsLogged(s, acts, a);
    hide After, Earns, Told, HeldAfter, NoSave, Tells, Initial;
    FinalIff(s.store, s'.log, t, a, o, o);
    DealtIff(s'.log, t, a);
    forall m: nat | DiscardedAt(s'.log, t, a, m) && NoSave(s'.log[m + 1..], a) ensures a !in s'.store {
      DiscardClears(s.store, s'.log, t, a, m);
    }
  }

  lemma DealtIff(log: seq<Event>, t: nat, a: AccountId)
    ensures Dealt(log, t, a) <==> DiscardFailed(t, a) in log || exists m: nat :: DiscardedAt(log, t, a, m)
  {
    if Dealt(log, t, a) {
      var m :| 0 <= m < |log| && DealtAt(log[m], t, a);
      assert log[m].Discarded? ==> DiscardedAt(log, t, a, m);
    }
    if DiscardFailed(t, a) in log {
      var m :| 0 <= m < |log| && log[m] == DiscardFailed(t, a);
      assert DealtAt(log[m], t, a);
    }
    if m: nat :| DiscardedAt(log, t, a, m) {
      assert DealtAt(log[m], t, a);
    }
  }
}
