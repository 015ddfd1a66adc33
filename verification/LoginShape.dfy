/** What every reachable state of the login protocol looks like: who leads, who flies, who
    joined what. */
module LoginShape {
  import opened Auth
  import opened LoginGate
  import opened TokenManager
  import opened LoginProtocol

  predicate InFlight(st: Stage) {
    st.Flying? || st.Sent? || st.Tokened? || st.Stamped? || st.Stored? || st.Ending?
  }

  /** An account has a pending attempt exactly when one call leads it, and holds the inner
      flight only while that call is between claiming and releasing it. */
  predicate AccountOk(s: State, a: AccountId) {
    && (a in s.gate.pending <==> a in s.leaders)
    && (a in s.leaders ==>
          && LeadsAt(s, s.leaders[a])
          && s.calls[s.leaders[a]].account == a
          && s.calls[s.leaders[a]].pc.attempt == s.gate.pending[a])
    && (a in s.tm.flights ==> a in s.leaders && InFlight(StageOf(s, s.leaders[a])))
  }

  /** A call that leads is its account's leader, and never waits on another call's inner
      flight. */
  predicate LeadOk(s: State, c: nat)
    requires LeadsAt(s, c)
  {
    var a, stage := s.calls[c].account, s.calls[c].pc.stage;
    && a in s.leaders && s.leaders[a] == c
    && !stage.InnerJoined? && !stage.InnerWoken?
    && (InFlight(stage) ==> a in s.tm.flights && s.tm.flights[a] == stage.ch)
  }

  /** A call that led or joined an attempt returned that attempt's published outcome. */
  predicate FollowOk(g: Gate, call: Call) {
    match call.pc
    case Joined(t) => t < |g.attempts| && g.attempts[t].account == call.account
    case GaveUp(t) => t < |g.attempts| && g.attempts[t].account == call.account
    case Finished(via, result) =>
      via.Some? ==>
        && via.value < |g.attempts|
        && g.attempts[via.value].closes == 1
        && g.attempts[via.value].account == call.account
        && result == Delivered(g.attempts[via.value].outcome)
    case _ => true
  }

  predicate CallOk(s: State, c: nat)
    requires c in s.calls
  {
    FollowOk(s.gate, s.calls[c]) && (s.calls[c].pc.Lead? ==> LeadOk(s, c))
  }

  lemma BeginKeepsFollow(g: Gate, a: AccountId, call: Call)
    requires g.Valid() && FollowOk(g, call)
    ensures FollowOk(g.Begin(a), call)
  {
    assert forall t :: 0 <= t < |g.attempts| ==>
        g.Begin(a).attempts[t] == g.attempts[t].(waiting := g.Begin(a).attempts[t].waiting);
  }

  lemma PublishKeepsFollow(g: Gate, a: AccountId, outcome: Outcome, call: Call)
    requires g.Valid() && a in g.pending && FollowOk(g, call)
    ensures FollowOk(g.Publish(a, g.pending[a], outcome), call)
  {
  }

  ghost predicate Shape(s: State) {
    && s.gate.Valid()
    && s.tm.Valid()
    && (forall a {:trigger AccountOk(s, a)} :: AccountOk(s, a))
    && (forall c {:trigger CallOk(s, c)} :: c in s.calls ==> CallOk(s, c))
  }

  /** `s` with one call moved to `pc`, and whatever store and log the step leaves. */
  function Moved(s: State, c: nat, pc: Pc, store: map<AccountId, Session>, log: seq<Event>): State
    requires c in s.calls
  {
    To(s, c, pc).(store := store, log := log)
  }

  /** A leader that stays a leader keeps the shape if it neither takes nor drops a flight. */
  lemma LeaderMoveKeepsShape(s: State, c: nat, pc: Pc, store: map<AccountId, Session>, log: seq<Event>)
    requires Shape(s) && LeadsAt(s, c) && pc.Lead? && pc.attempt == s.calls[c].pc.attempt
    requires InFlight(pc.stage) <==> InFlight(StageOf(s, c))
    requires InFlight(pc.stage) ==> pc.stage.ch == StageOf(s, c).ch
    requires !pc.stage.InnerJoined? && !pc.stage.InnerWoken?
    ensures Shape(Moved(s, c, pc, store, log))
  {
    var s' := Moved(s, c, pc, store, log);
    assert CallOk(s, c);
    forall a ensures AccountOk(s', a) { assert AccountOk(s, a); }
    forall d | d in s'.calls ensures CallOk(s', d) { assert CallOk(s, d); }
  }

  /** A call that leads neither before nor after keeps the shape if what it joined or returned
      is right. */
  lemma FollowerMoveKeepsShape(s: State, c: nat, pc: Pc, store: map<AccountId, Session>, log: seq<Event>)
    requires Shape(s) && c in s.calls && !LeadsAt(s, c) && !pc.Lead?
    requires FollowOk(s.gate, s.calls[c].(pc := pc))
    ensures Shape(Moved(s, c, pc, store, log))
  {
    var s' := Moved(s, c, pc, store, log);
    forall a ensures AccountOk(s', a) { assert AccountOk(s, a); }
    forall d | d in s'.calls ensures CallOk(s', d) { assert CallOk(s, d); }
  }

  lemma NewCallKeepsShape(s: State, c: nat, call: Call)
    requires Shape(s) && c !in s.calls && !call.pc.Lead? && FollowOk(s.gate, call)
    ensures Shape(s.(calls := s.calls[c := call]))
  {
    var s' := s.(calls := s.calls[c := call]);
    forall a ensures AccountOk(s', a) { assert AccountOk(s, a); }
    forall d | d in s'.calls ensures CallOk(s', d) { assert d in s.calls ==> CallOk(s, d); }
  }

  lemma EnterKeepsShape(s: State, c: nat)
    requires Shape(s) && c in s.calls && s.calls[c].pc.AtGate?
    ensures Shape(Enter(s, c))
  {
    var s' := Enter(s, c);
    var b := s.calls[c].account;
    assert AccountOk(s, b) && CallOk(s, c);
    forall a ensures AccountOk(s', a) { assert AccountOk(s, a); }
    forall d | d in s'.calls ensures CallOk(s', d) {
      assert CallOk(s, d);
      BeginKeepsFollow(s.gate, b, s.calls[d]);
    }
  }

  /** The leader of a pending attempt always wins the inner flight. */
  lemma InnerBeginKeepsShape(s: State, c: nat)
    requires Shape(s) && LeadsAt(s, c) && StageOf(s, c).InnerBeginning?
    ensures !s.tm.InProgress(s.calls[c].account)
    ensures Shape(InnerBegin(s, c))
  {
    var s' := InnerBegin(s, c);
    BeginKeepsValid(s.tm, s.calls[c].account);
    assert AccountOk(s, s.calls[c].account) && CallOk(s, c);
    forall a ensures AccountOk(s', a) { assert AccountOk(s, a); }
    forall d | d in s'.calls ensures CallOk(s', d) { assert CallOk(s, d); }
  }

  lemma EndKeepsShape(s: State, c: nat)
    requires Shape(s) && LeadsAt(s, c) && StageOf(s, c).Ending?
    ensures Shape(End(s, c))
  {
    var s' := End(s, c);
    EndKeepsValid(s.tm, s.calls[c].account);
    assert AccountOk(s, s.calls[c].account) && CallOk(s, c);
    forall a ensures AccountOk(s', a) { assert AccountOk(s, a); }
    forall d | d in s'.calls ensures CallOk(s', d) { assert CallOk(s, d); }
  }

  lemma PublishKeepsShape(s: State, c: nat)
    requires Shape(s) && LeadsAt(s, c) && StageOf(s, c).Publishing?
    ensures Shape(Publish(s, c))
  {
    var s' := Publish(s, c);
    var a := s.calls[c].account;
    assert AccountOk(s, a) && CallOk(s, c);
    PublishKeepsValid(s.gate, a, StageOf(s, c).outcome);
    forall b ensures AccountOk(s', b) { assert AccountOk(s, b); }
    forall d | d in s'.calls ensures CallOk(s', d) {
      assert CallOk(s, d);
      PublishKeepsFollow(s.gate, a, StageOf(s, c).outcome, s.calls[d]);
    }
  }

  /** Every other step of a leader moves it along without touching the gate or the flights. */
  predicate MovesAlong(s: State, c: nat, s': State)
    requires LeadsAt(s, c)
  {
    && LeadsAt(s', c)
    && s' == Moved(s, c, s'.calls[c].pc, s'.store, s'.log)
    && s'.calls[c].pc.attempt == s.calls[c].pc.attempt
    && (InFlight(StageOf(s', c)) <==> InFlight(StageOf(s, c)))
    && (InFlight(StageOf(s', c)) ==> StageOf(s', c).ch == StageOf(s, c).ch)
    && !StageOf(s', c).InnerJoined? && !StageOf(s', c).InnerWoken?
  }

  lemma QuietStepMoves(s: State, c: nat, choice: Choice)
    requires LeadsAt(s, c)
    requires StageOf(s, c).ReReading? || StageOf(s, c).ReRead? || StageOf(s, c).Settling?
    ensures MovesAlong(s, c, LeadStep(s, c, choice))
  {
  }

  lemma FlightStepMoves(s: State, c: nat, choice: Choice)
    requires LeadsAt(s, c) && InFlight(StageOf(s, c)) && !StageOf(s, c).Ending?
    ensures MovesAlong(s, c, LeadStep(s, c, choice))
  {
  }

  lemma LeadStepKeepsShape(s: State, c: nat, choice: Choice)
    requires Shape(s) && LeadsAt(s, c)
    ensures Shape(LeadStep(s, c, choice))
  {
    assert CallOk(s, c);
    var st := StageOf(s, c);
    if st.InnerBeginning? {
      InnerBeginKeepsShape(s, c);
    } else if st.Ending? {
      EndKeepsShape(s, c);
    } else if st.Publishing? {
      PublishKeepsShape(s, c);
    } else {
      if InFlight(st) {
        FlightStepMoves(s, c, choice);
      } else {
        QuietStepMoves(s, c, choice);
      }
      var s' := LeadStep(s, c, choice);
      hide LeadStep;
      LeaderMoveKeepsShape(s, c, s'.calls[c].pc, s'.store, s'.log);
    }
  }

  /** So does every step of a call that does not lead, but for the gate. */
  predicate FollowsAlong(s: State, c: nat, s': State)
    requires c in s.calls
  {
    && c in s'.calls && !s'.calls[c].pc.Lead?
    && s' == Moved(s, c, s'.calls[c].pc, s'.store, s'.log)
    && FollowOk(s.gate, s.calls[c].(pc := s'.calls[c].pc))
  }

  lemma AwaitFollows(s: State, c: nat, cancelled: bool)
    requires c in s.calls && s.calls[c].pc.Joined? && s.gate.Valid() && FollowOk(s.gate, s.calls[c])
    ensures FollowsAlong(s, c, Await(s, c, cancelled))
  {
  }

  lemma MoveFollows(s: State, c: nat, pc: Pc, store: map<AccountId, Session>, log: seq<Event>)
    requires c in s.calls && !pc.Lead? && FollowOk(s.gate, s.calls[c].(pc := pc))
    ensures FollowsAlong(s, c, To(s, c, pc).(store := store, log := log))
  {
  }

  lemma ReadingFollows(s: State, c: nat, choice: Choice)
    requires c in s.calls && (s.calls[c].pc.Reading? || s.calls[c].pc.Read?)
    ensures FollowsAlong(s, c, CallStep(s, c, choice))
  {
    var s' := CallStep(s, c, choice);
    MoveFollows(s, c, s'.calls[c].pc, s'.store, s'.log);
    hide FollowsAlong;
  }

  lemma LogoutFollows(s: State, c: nat, choice: Choice)
    requires c in s.calls
    requires var pc := s.calls[c].pc; pc.LogoutReading? || pc.LogoutSent? || pc.LogoutClearing?
    ensures FollowsAlong(s, c, CallStep(s, c, choice))
  {
    var s' := CallStep(s, c, choice);
    MoveFollows(s, c, s'.calls[c].pc, s'.store, s'.log);
    hide FollowsAlong;
  }

  lemma FollowerStepFollows(s: State, c: nat, choice: Choice)
    requires c in s.calls && !LeadsAt(s, c) && !s.calls[c].pc.AtGate? && s.gate.Valid()
    requires FollowOk(s.gate, s.calls[c])
    ensures FollowsAlong(s, c, CallStep(s, c, choice))
  {
    var pc := s.calls[c].pc;
    if pc.Joined? {
      AwaitFollows(s, c, choice.cancelled);
    } else if pc.Reading? || pc.Read? {
      ReadingFollows(s, c, choice);
    } else if pc.LogoutReading? || pc.LogoutSent? || pc.LogoutClearing? {
      LogoutFollows(s, c, choice);
    } else {
      MoveFollows(s, c, pc, s.store, s.log);
      assert To(s, c, pc) == s;
      hide FollowsAlong;
    }
  }

  lemma CallStepKeepsShape(s: State, c: nat, choice: Choice)
    requires Shape(s) && c in s.calls
    ensures Shape(CallStep(s, c, choice))
  {
    assert CallOk(s, c) && s.gate.Valid();
    hide Shape, LeadStep, Enter, LeadOk, Moved, FollowOk;
    match s.calls[c].pc {
      case AtGate => EnterKeepsShape(s, c);
      case Lead(_, _, _) => LeadStepKeepsShape(s, c, choice);
      case _ =>
        FollowerStepFollows(s, c, choice);
        var s' := CallStep(s, c, choice);
        hide CallStep;
        FollowerMoveKeepsShape(s, c, s'.calls[c].pc, s'.store, s'.log);
    }
  }

  lemma ApplyKeepsShape(s: State, act: Action)
    requires Shape(s)
    ensures Shape(Apply(s, act))
  {
    var s' := Apply(s, act);
    match act {
      case Tick(_) =>
        forall a ensures AccountOk(s', a) { assert AccountOk(s, a); }
        forall d | d in s'.calls ensures CallOk(s', d) { assert CallOk(s, d); }
      case Step(c, choice) => if c in s.calls { CallStepKeepsShape(s, c, choice); }
      case _ => if act.c !in s.calls { NewCallKeepsShape(s, act.c, s'.calls[act.c]); }
    }
  }
}
