/** What a caller is answered outside the gate: a Login that finds a live session, and a Logout. */
module LoginCallers {
  import opened Prelude
  import opened Auth
  import opened LoginProtocol
  import opened LoginShape
  import opened LoginSafety
  import opened LoginStory
  import opened LoginSessions
  import opened LoginOutcomes

  /** Call `c` read the store at `r`, which held `held` then, and looked at the clock at `k`. */
  predicate Looked(store: Store, log: seq<Event>, c: nat, a: AccountId, r: nat, k: nat, held: Option<Session>) {
    && r < k < |log| && log[r] == CallerRead(c, a) && HeldAfter(store, log[..r], a) == held
    && log[k].CallerChecked? && log[k].call == c && log[k].account == a
  }

  ghost predicate FoundLiveSession(store: Store, log: seq<Event>, c: nat, a: AccountId, x: Session) {
    exists r: nat, k: nat :: Looked(store, log, c, a, r, k, Some(x)) && !x.ShouldRefresh(log[k].now)
  }

  ghost predicate FoundNoLiveSession(store: Store, log: seq<Event>, c: nat, a: AccountId) {
    exists r: nat, k: nat, held :: Looked(store, log, c, a, r, k, held) && !Live(held, log[k].now)
  }

  predicate ReadAt(store: Store, log: seq<Event>, c: nat, a: AccountId, r: nat, held: Option<Session>) {
    r < |log| && log[r] == CallerRead(c, a) && HeldAfter(store, log[..r], a) == held
  }

  /** The log accounts for where the call is. */
  ghost predicate CallerTells(store: Store, log: seq<Event>, c: nat, call: Call) {
    var a := call.account;
    match call.pc
    case Reading => true
    case Read(held) => exists r: nat :: ReadAt(store, log, c, a, r, held)
    case Finished(via, result) =>
      if via.Some? then FoundNoLiveSession(store, log, c, a)
      else if result.Success? then FoundLiveSession(store, log, c, a, result.session)
      else result.error == InvalidParam || CallerFault(c, a, result.error) in log
    case LogoutReading => true
    case LogoutSent => true
    case LogoutClearing => LogoutAnswered(c, a, true) in log
    case LogoutDone(error, at) => at <= |log| && (error.None? ==> HeldAfter(store, log[..at], a).None?)
    case _ => FoundNoLiveSession(store, log, c, a)
  }

  /** Every clear by a Logout was acknowledged by the Gateway before. */
  ghost predicate ClearsAcked(log: seq<Event>) {
    forall k :: 0 <= k < |log| && log[k].LoggedOut? ==> Acked(log[..k], log[k].account)
  }

  ghost predicate Acked(log: seq<Event>, a: AccountId) {
    exists c: nat :: LogoutAnswered(c, a, true) in log
  }

  ghost predicate AllCallersTell(store: Store, s: State) {
    && ClearsAcked(s.log)
    && (forall c {:trigger CallerTells(store, s.log, c, s.calls[c])} :: c in s.calls ==>
          CallerTells(store, s.log, c, s.calls[c]))
  }

  lemma LookedLater(
    store: Store, log: seq<Event>, log': seq<Event>, c: nat, a: AccountId, r: nat, k: nat, held: Option<Session>)
    requires log <= log' && Looked(store, log, c, a, r, k, held)
    ensures Looked(store, log', c, a, r, k, held) && log'[k] == log[k]
  {
    assert log'[..r] == log[..r];
  }

  lemma LiveLater(store: Store, log: seq<Event>, log': seq<Event>, c: nat, a: AccountId, x: Session)
    requires log <= log' && FoundLiveSession(store, log, c, a, x)
    ensures FoundLiveSession(store, log', c, a, x)
  {
    var r: nat, k: nat :| Looked(store, log, c, a, r, k, Some(x)) && !x.ShouldRefresh(log[k].now);
    LookedLater(store, log, log', c, a, r, k, Some(x));
  }

  lemma NotLiveLater(store: Store, log: seq<Event>, log': seq<Event>, c: nat, a: AccountId)
    requires log <= log' && FoundNoLiveSession(store, log, c, a)
    ensures FoundNoLiveSession(store, log', c, a)
  {
    var r: nat, k: nat, held :| Looked(store, log, c, a, r, k, held) && !Live(held, log[k].now);
    LookedLater(store, log, log', c, a, r, k, held);
  }

  lemma ReadLater(store: Store, log: seq<Event>, log': seq<Event>, c: nat, a: AccountId, held: Option<Session>)
    requires log <= log' && exists r: nat :: ReadAt(store, log, c, a, r, held)
    ensures exists r: nat :: ReadAt(store, log', c, a, r, held)
  {
    var r: nat :| ReadAt(store, log, c, a, r, held);
    assert log'[..r] == log[..r];
    assert ReadAt(store, log', c, a, r, held);
  }

  /** The log only grows, so what it accounts for stays accounted for. */
  lemma TellsLater(store: Store, log: seq<Event>, log': seq<Event>, c: nat, call: Call)
    requires log <= log' && CallerTells(store, log, c, call)
    ensures CallerTells(store, log', c, call)
  {
    var a, pc := call.account, call.pc;
    hide HeldAfter, FoundLiveSession, FoundNoLiveSession, ReadAt;
    assert forall e :: e in log ==> e in log';
    match pc
    case Read(held) => ReadLater(store, log, log', c, a, held);
    case Finished(via, result) =>
      if via.Some? {
        NotLiveLater(store, log, log', c, a);
      } else if result.Success? {
        LiveLater(store, log, log', c, a, result.session);
      }
    case LogoutDone(error, at) => assert log'[..at] == log[..at];
    case AtGate => NotLiveLater(store, log, log', c, a);
    case Joined(_) => NotLiveLater(store, log, log', c, a);
    case Lead(_, _, _) => NotLiveLater(store, log, log', c, a);
    case GaveUp(_) => NotLiveLater(store, log, log', c, a);
    case _ =>
  }

  // ---- the steps ----

  lemma ReadingTells(store: Store, s: State, c: nat, choice: Choice)
    requires StoreLogged(store, s) && c in s.calls && s.calls[c].pc.Reading?
    ensures var s' := CallStep(s, c, choice); c in s'.calls && CallerTells(store, s'.log, c, s'.calls[c])
  {
    var s', a, n := CallStep(s, c, choice), s.calls[c].account, |s.log|;
    assert Lookup(s.store, a) == HeldAfter(store, s.log, a);
    assert s'.log[..n] == s.log && s'.log[n] in s'.log;
    hide HeldAfter;
    if choice.fault.None? {
      assert ReadAt(store, s'.log, c, a, n, Lookup(s.store, a));
    }
  }

  lemma CheckTells(store: Store, s: State, c: nat, choice: Choice)
    requires c in s.calls && s.calls[c].pc.Read? && CallerTells(store, s.log, c, s.calls[c])
    ensures var s' := CallStep(s, c, choice); c in s'.calls && CallerTells(store, s'.log, c, s'.calls[c])
  {
    var s', a, held := CallStep(s, c, choice), s.calls[c].account, s.calls[c].pc.held;
    var r: nat :| ReadAt(store, s.log, c, a, r, held);
    assert s'.log[..r] == s.log[..r];
    assert Looked(store, s'.log, c, a, r, |s.log|, held);
  }

  lemma LogoutReadTells(store: Store, s: State, c: nat, fault: Option<Error>)
    requires c in s.calls && Lookup(s.store, s.calls[c].account) == HeldAfter(store, s.log, s.calls[c].account)
    ensures var s' := LogoutRead(s, c, fault); CallerTells(store, s'.log, c, s'.calls[c])
  {
    assert s.log[..|s.log|] == s.log;
    hide HeldAfter;
  }

  lemma LogoutReceiveTells(store: Store, s: State, c: nat, reply: Reply)
    requires c in s.calls
    ensures var s' := LogoutReceive(s, c, reply); CallerTells(store, s'.log, c, s'.calls[c])
  {
    assert LogoutReceive(s, c, reply).log[|s.log|] == LogoutAnswered(c, s.calls[c].account, reply.Token?);
    hide HeldAfter;
  }

  lemma LogoutClearTells(store: Store, s: State, c: nat, fault: Option<Error>)
    requires c in s.calls
    ensures var s' := LogoutClear(s, c, fault); CallerTells(store, s'.log, c, s'.calls[c])
  {
    var s', a := LogoutClear(s, c, fault), s.calls[c].account;
    HeldNext(store, s.log, LoggedOut(a), a);
    assert s'.log[..|s'.log|] == s'.log;
    hide HeldAfter;
  }

  lemma LogoutTells(store: Store, s: State, c: nat, choice: Choice)
    requires StoreLogged(store, s) && c in s.calls
    requires var pc := s.calls[c].pc; pc.LogoutReading? || pc.LogoutSent? || pc.LogoutClearing?
    ensures var s' := CallStep(s, c, choice); c in s'.calls && CallerTells(store, s'.log, c, s'.calls[c])
  {
    assert Lookup(s.store, s.calls[c].account) == HeldAfter(store, s.log, s.calls[c].account);
    hide HeldAfter, StoreLogged, CallerTells;
    LogoutReadTells(store, s, c, choice.fault);
    LogoutReceiveTells(store, s, c, choice.reply);
    LogoutClearTells(store, s, c, choice.fault);
  }

  /** A call at the gate or beyond stays there. */
  predicate Beyond(pc: Pc) {
    pc.AtGate? || pc.Joined? || pc.Lead? || pc.GaveUp? || (pc.Finished? && pc.via.Some?)
  }

  /** A leader goes on or returns its attempt's outcome, and clears nothing as a Logout does. */
  predicate GoesOn(s: State, s': State, c: nat)
    requires c in s.calls
  {
    && c in s'.calls && Beyond(s'.calls[c].pc) && s'.calls[c].account == s.calls[c].account
    && (|s'.log| > |s.log| ==> !s'.log[|s.log|].LoggedOut?)
  }

  lemma FlightGoesOn(s: State, c: nat, choice: Choice)
    requires LeadsAt(s, c) && InFlight(StageOf(s, c))
    ensures GoesOn(s, LeadStep(s, c, choice), c)
  {
  }

  lemma QuietGoesOn(s: State, c: nat, choice: Choice)
    requires LeadsAt(s, c) && !InFlight(StageOf(s, c))
    ensures GoesOn(s, LeadStep(s, c, choice), c)
  {
  }

  lemma LeadGoesOn(s: State, c: nat, choice: Choice)
    requires LeadsAt(s, c)
    ensures GoesOn(s, LeadStep(s, c, choice), c)
  {
    if InFlight(StageOf(s, c)) {
      FlightGoesOn(s, c, choice);
    } else {
      QuietGoesOn(s, c, choice);
    }
    hide LeadStep;
  }

  lemma BeyondTells(store: Store, s: State, c: nat, choice: Choice)
    requires c in s.calls && Beyond(s.calls[c].pc) && CallerTells(store, s.log, c, s.calls[c])
    requires s.log <= CallStep(s, c, choice).log
    ensures var s' := CallStep(s, c, choice); c in s'.calls && CallerTells(store, s'.log, c, s'.calls[c])
  {
    var s' := CallStep(s, c, choice);
    hide FoundNoLiveSession, FoundLiveSession, ReadAt, LeadStep, HeldAfter;
    if LeadsAt(s, c) {
      LeadGoesOn(s, c, choice);
    }
    assert c in s'.calls && Beyond(s'.calls[c].pc) && s'.calls[c].account == s.calls[c].account;
    NotLiveLater(store, s.log, s'.log, c, s.calls[c].account);
    hide CallStep;
  }

  lemma CallerStepTells(store: Store, s: State, c: nat, choice: Choice)
    requires StoreLogged(store, s) && c in s.calls && CallerTells(store, s.log, c, s.calls[c])
    ensures var s' := CallStep(s, c, choice); c in s'.calls && CallerTells(store, s'.log, c, s'.calls[c])
  {
    var pc := s.calls[c].pc;
    CallStepTouches(s, c, choice);
    hide StoreLogged, HeldAfter, CallerTells, LeadStep, Enter, LogoutRead, LogoutReceive, LogoutClear, Await;
    if pc.Reading? {
      ReadingTells(store, s, c, choice);
    } else if pc.Read? {
      CheckTells(store, s, c, choice);
    } else if pc.LogoutReading? || pc.LogoutSent? || pc.LogoutClearing? {
      LogoutTells(store, s, c, choice);
    } else if Beyond(pc) {
      BeyondTells(store, s, c, choice);
    }
  }

  /** Only a Logout that was acknowledged clears. */
  lemma ClearStep(s: State, c: nat, choice: Choice)
    requires c in s.calls
    ensures var s' := CallStep(s, c, choice);
            |s'.log| > |s.log| && s'.log[|s.log|].LoggedOut? ==>
              s.calls[c].pc.LogoutClearing? && s'.log[|s.log|].account == s.calls[c].account
  {
    if LeadsAt(s, c) {
      LeadGoesOn(s, c, choice);
    }
    hide LeadStep, Enter;
  }

  lemma StepKeepsAcked(store: Store, s: State, c: nat, choice: Choice)
    requires c in s.calls && ClearsAcked(s.log) && CallerTells(store, s.log, c, s.calls[c])
    ensures ClearsAcked(CallStep(s, c, choice).log)
  {
    var log, log' := s.log, CallStep(s, c, choice).log;
    CallStepTouches(s, c, choice);
    ClearStep(s, c, choice);
    hide CallStep, FoundNoLiveSession, FoundLiveSession, HeldAfter;
    forall k | 0 <= k < |log'| && log'[k].LoggedOut? ensures Acked(log'[..k], log'[k].account) {
      if k < |log| {
        assert log'[..k] == log[..k] && log'[k] == log[k];
      } else {
        assert log'[..k] == log;
        assert LogoutAnswered(c, s.calls[c].account, true) in log;
      }
    }
  }

  lemma CallStepKeepsCallers(store: Store, s: State, c: nat, choice: Choice)
    requires StoreLogged(store, s) && AllCallersTell(store, s) && c in s.calls
    ensures AllCallersTell(store, CallStep(s, c, choice))
  {
    var s' := CallStep(s, c, choice);
    assert CallerTells(store, s.log, c, s.calls[c]);
    CallStepTouches(s, c, choice);
    CallerStepTells(store, s, c, choice);
    StepKeepsAcked(store, s, c, choice);
    hide CallStep, CallerTells, StoreLogged, ClearsAcked;
    forall d | d in s'.calls ensures CallerTells(store, s'.log, d, s'.calls[d]) {
      if d != c {
        assert Lookup(s'.calls, d) == Lookup(s.calls, d);
        assert CallerTells(store, s.log, d, s.calls[d]);
        TellsLater(store, s.log, s'.log, d, s.calls[d]);
      }
    }
  }

  lemma ArrivalTells(store: Store, s: State, act: Action)
    requires AllCallersTell(store, s) && !act.Step?
    ensures AllCallersTell(store, Apply(s, act))
  {
    var s' := Apply(s, act);
    hide ClearsAcked;
    forall d | d in s'.calls ensures CallerTells(store, s'.log, d, s'.calls[d]) {
      if d in s.calls {
        assert CallerTells(store, s.log, d, s.calls[d]);
      }
    }
  }

  lemma {:induction false} RunKeepsCallers(s: State, acts: seq<Action>)
    requires Initial(s)
    ensures AllCallersTell(s.store, After(s, acts))
  {
    if acts != [] {
      var init, act := acts[..|acts| - 1], acts[|acts| - 1];
      RunKeepsCallers(s, init);
      RunTells(s, init);
      if !act.Step? {
        ArrivalTells(s.store, After(s, init), act);
      } else if act.c in After(s, init).calls {
        CallStepKeepsCallers(s.store, After(s, init), act.c, act.choice);
      }
      hide CallStep, AllCallersTell;
    }
  }

  // ---- the results ----

  /** In every run: a Login that returned a session without the gate had read the store when that
      session was in it, and then found it live; one that failed there had an invalid argument, or
      the very error the store met; and one that came to the gate had found nothing live. */
  lemma ReusesOnlyLiveSessions(s: State, acts: seq<Action>, c: nat)
    requires Initial(s)
    requires c in After(s, acts).calls
    ensures var s' := After(s, acts);
            var Call(a, pc) := s'.calls[c];
            && (Beyond(pc) ==> FoundNoLiveSession(s.store, s'.log, c, a))
            && (pc.Finished? && pc.via.None? && pc.result.Success? ==>
                  FoundLiveSession(s.store, s'.log, c, a, pc.result.session))
            && (pc.Finished? && pc.via.None? && pc.result.Failure? ==>
                  pc.result.error == InvalidParam || CallerFault(c, a, pc.result.error) in s'.log)
  {
    RunKeepsCallers(s, acts);
    assert CallerTells(s.store, After(s, acts).log, c, After(s, acts).calls[c]);
    hide After, FoundLiveSession, FoundNoLiveSession;
  }

  /** In every run: a Login that led or joined an attempt returned the outcome, success or failure,
      that the attempt's events earned it, and no other. */
  lemma LoginReturnsWhatWasEarned(s: State, acts: seq<Action>, c: nat, o: Outcome)
    requires Initial(s)
    requires var s' := After(s, acts); c in s'.calls && s'.calls[c].pc.Finished? && s'.calls[c].pc.via.Some?
    ensures var s' := After(s, acts);
            var Call(a, pc) := s'.calls[c];
            (exists k: nat :: Earns(s.store, s'.log, pc.via.value, a, k, o)) <==> o == pc.result
  {
    var s' := After(s, acts);
    LoginReturnsItsOwnSession(s, acts, c);
    RunIsSafe(s, acts);
    assert CallOk(s', c);
    hide After, Earns, Shape, Safe;
    OutcomeIsEarned(s, acts, s'.calls[c].pc.via.value, o);
  }

  /** In every run: when a Logout returned without an error its account was out of the store, and it
      still is unless something has been saved for it since. */
  lemma LogoutClears(s: State, acts: seq<Action>, c: nat)
    requires Initial(s)
    requires var s' := After(s, acts); c in s'.calls && s'.calls[c].pc.LogoutDone? && s'.calls[c].pc.error.None?
    ensures var s' := After(s, acts);
            var Call(a, pc) := s'.calls[c];
            && pc.at <= |s'.log| && HeldAfter(s.store, s'.log[..pc.at], a).None?
            && (NoSave(s'.log[pc.at..], a) ==> a !in s'.store)
  {
    var s' := After(s, acts);
    var a, at := s'.calls[c].account, s'.calls[c].pc.at;
    RunKeepsCallers(s, acts);
    assert CallerTells(s.store, s'.log, c, s'.calls[c]);
    StoreIsLogged(s, acts, a);
    hide After, HeldAfter;
    StaysOut(s.store, s'.log, at, a);
  }

  /** In every run: a Logout cleared an account only after the Gateway had acknowledged one for it. */
  lemma ClearsOnlyWhenAcknowledged(s: State, acts: seq<Action>, k: nat)
    requires Initial(s)
    requires var log := After(s, acts).log; k < |log| && log[k].LoggedOut?
    ensures var log := After(s, acts).log;
            exists c: nat :: LogoutAnswered(c, log[k].account, true) in log[..k]
  {
    RunKeepsCallers(s, acts);
    var log := After(s, acts).log;
    assert Acked(log[..k], log[k].account);
  }
}
