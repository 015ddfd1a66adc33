/** Whose session a login returns. */
module LoginSessions {
  import opened Prelude
  import opened Auth
  import opened LoginGate
  import opened LoginProtocol
  import opened LoginShape
  import opened LoginSafety

  predicate OwnSession(held: Option<Session>, a: AccountId) {
    held.Some? ==> held.value.accountId == a
  }

  predicate OwnOutcome(o: Outcome, a: AccountId) {
    o.Success? ==> o.session.accountId == a
  }

  /** What a leader carries is its own account's. */
  predicate OwnStage(st: Stage, a: AccountId) {
    match st
    case ReRead(held) => OwnSession(held, a)
    case Stamped(_, x) => x.accountId == a
    case Ending(_, o) => OwnOutcome(o, a)
    case Settling(o) => OwnOutcome(o, a)
    case Publishing(o) => OwnOutcome(o, a)
    case _ => true
  }

  predicate OwnCall(call: Call) {
    match call.pc
    case Finished(_, result) => result.Success? ==> OwnOutcome(result, call.account) && call.account != NO_ACCOUNT
    case Read(held) => call.account != NO_ACCOUNT && OwnSession(held, call.account)
    case Lead(_, _, stage) => call.account != NO_ACCOUNT && OwnStage(stage, call.account)
    case Reading => call.account != NO_ACCOUNT
    case AtGate => call.account != NO_ACCOUNT
    case Joined(_) => call.account != NO_ACCOUNT
    case _ => true
  }

  predicate OwnAttempts(g: Gate) {
    forall t :: 0 <= t < |g.attempts| ==>
      && g.attempts[t].account != NO_ACCOUNT
      && (g.attempts[t].closes != 0 ==> OwnOutcome(g.attempts[t].outcome, g.attempts[t].account))
  }

  /** The store files every session under its own account, and so does everything in transit. */
  ghost predicate AllOwn(s: State) {
    && StoreKeyed(s)
    && OwnAttempts(s.gate)
    && (forall c {:trigger OwnCall(s.calls[c])} :: c in s.calls ==> OwnCall(s.calls[c]))
  }

  /** What a step of call `c` must keep. */
  predicate KeepsOwn(s: State, c: nat, s': State)
    requires c in s.calls
  {
    StoreKeyed(s') && OwnAttempts(s'.gate) && c in s'.calls && OwnCall(s'.calls[c])
  }

  lemma FlightStepKeepsOwn(s: State, c: nat, choice: Choice)
    requires Shape(s) && AllOwn(s) && LeadsAt(s, c) && InFlight(StageOf(s, c))
    ensures KeepsOwn(s, c, LeadStep(s, c, choice))
  {
    assert OwnCall(s.calls[c]);
    hide Shape;
  }

  lemma QuietStepKeepsOwn(s: State, c: nat, choice: Choice)
    requires Shape(s) && AllOwn(s) && LeadsAt(s, c) && !InFlight(StageOf(s, c)) && !StageOf(s, c).Publishing?
    ensures KeepsOwn(s, c, LeadStep(s, c, choice))
  {
    assert OwnCall(s.calls[c]) && CallOk(s, c);
    hide Shape;
  }

  lemma PublishKeepsOwn(s: State, c: nat)
    requires Shape(s) && AllOwn(s) && LeadsAt(s, c) && StageOf(s, c).Publishing?
    ensures KeepsOwn(s, c, Publish(s, c))
  {
    assert OwnCall(s.calls[c]) && CallOk(s, c) && AccountOk(s, s.calls[c].account);
  }

  lemma EnterKeepsOwn(s: State, c: nat)
    requires Shape(s) && AllOwn(s) && c in s.calls && s.calls[c].pc.AtGate?
    ensures KeepsOwn(s, c, Enter(s, c))
  {
    assert OwnCall(s.calls[c]);
    var g, a := s.gate, s.calls[c].account;
    assert forall t :: 0 <= t < |g.attempts| ==>
        g.Begin(a).attempts[t] == g.attempts[t].(waiting := g.Begin(a).attempts[t].waiting);
    hide Shape;
  }

  lemma AwaitKeepsOwn(s: State, c: nat, cancelled: bool)
    requires Shape(s) && AllOwn(s) && c in s.calls && s.calls[c].pc.Joined?
    ensures KeepsOwn(s, c, Await(s, c, cancelled))
  {
    assert OwnCall(s.calls[c]) && CallOk(s, c);
    hide Shape;
  }

  lemma PlainStepKeepsOwn(s: State, c: nat, choice: Choice)
    requires AllOwn(s) && c in s.calls && !LeadsAt(s, c) && !s.calls[c].pc.AtGate? && !s.calls[c].pc.Joined?
    ensures KeepsOwn(s, c, CallStep(s, c, choice))
  {
    assert OwnCall(s.calls[c]);
    hide OwnAttempts;
  }

  lemma FollowerStepKeepsOwn(s: State, c: nat, choice: Choice)
    requires Shape(s) && AllOwn(s) && c in s.calls && !LeadsAt(s, c)
    ensures KeepsOwn(s, c, CallStep(s, c, choice))
  {
    assert OwnCall(s.calls[c]);
    if s.calls[c].pc.AtGate? {
      EnterKeepsOwn(s, c);
    } else if s.calls[c].pc.Joined? {
      AwaitKeepsOwn(s, c, choice.cancelled);
    } else {
      PlainStepKeepsOwn(s, c, choice);
    }
    hide Shape, LeadStep, Enter, Await, OwnAttempts, KeepsOwn;
  }

  lemma CallStepKeepsOwn(s: State, c: nat, choice: Choice)
    requires Shape(s) && AllOwn(s) && c in s.calls
    ensures AllOwn(CallStep(s, c, choice))
  {
    if !LeadsAt(s, c) {
      FollowerStepKeepsOwn(s, c, choice);
    } else if StageOf(s, c).Publishing? {
      PublishKeepsOwn(s, c);
    } else if InFlight(StageOf(s, c)) {
      FlightStepKeepsOwn(s, c, choice);
    } else {
      QuietStepKeepsOwn(s, c, choice);
    }
    CallStepTouches(s, c, choice);
    var s' := CallStep(s, c, choice);
    hide CallStep, Shape, OwnCall, OwnAttempts, StoreKeyed;
    forall d | d in s'.calls ensures OwnCall(s'.calls[d]) {
      if d != c {
        assert Lookup(s'.calls, d) == Lookup(s.calls, d);
        assert OwnCall(s.calls[d]);
      }
    }
  }

  lemma ApplyKeepsOwn(s: State, act: Action)
    requires Shape(s) && AllOwn(s)
    ensures AllOwn(Apply(s, act))
  {
    hide Shape, CallStep, StoreKeyed, OwnAttempts;
    if act.Step? {
      if act.c in s.calls {
        CallStepKeepsOwn(s, act.c, act.choice);
      }
    } else {
      var s' := Apply(s, act);
      KeyedStays(s, s');
      forall d | d in s'.calls ensures OwnCall(s'.calls[d]) {
        assert d in s.calls ==> OwnCall(s.calls[d]);
      }
    }
  }

  lemma KeyedStays(s: State, s': State)
    requires StoreKeyed(s) && s'.store == s.store
    ensures StoreKeyed(s')
  {
  }

  lemma {:induction false} RunKeepsOwn(s: State, acts: seq<Action>)
    requires Initial(s)
    ensures AllOwn(After(s, acts))
  {
    if acts != [] {
      var init := acts[..|acts| - 1];
      RunKeepsOwn(s, init);
      RunIsSafe(s, init);
      ApplyKeepsOwn(After(s, init), acts[|acts| - 1]);
      hide Apply, AllOwn;
    }
  }

  /** In every run: a Login that succeeds returns a session of its own account, and the check for a
      session of no account never fires: what a caller is told is what was published. */
  lemma LoginReturnsItsOwnSession(s: State, acts: seq<Action>, c: nat)
    requires Initial(s)
    requires var s' := After(s, acts); c in s'.calls && s'.calls[c].pc.Finished?
    ensures var s' := After(s, acts);
            var pc, a := s'.calls[c].pc, s'.calls[c].account;
            && (pc.result.Success? ==> a != NO_ACCOUNT && pc.result.session.accountId == a)
            && (pc.via.Some? ==> pc.via.value < |s'.gate.attempts|
                                 && pc.result == s'.gate.attempts[pc.via.value].outcome)
  {
    var s' := After(s, acts);
    RunIsSafe(s, acts);
    RunKeepsOwn(s, acts);
    assert CallOk(s', c) && OwnCall(s'.calls[c]);
    hide After, Shape, Safe, LeadOk;
  }
}
