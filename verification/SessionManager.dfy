/** The released session manager: a three-state machine, a condition variable, and callers of
    `Login`, `EnsureLoggedIn`, `ReLogin` and `Logout` in any number. One action is one critical
    section under the manager's mutex or one exchange with the Gateway. */
module SessionManager {
  import opened Prelude

  datatype MachineState = LoggedOut | LoggingIn | LoggedIn

  /** The I/O-free machine; every method takes its own mutex, so each is one step. */
  class Machine {
    var state: MachineState

    constructor ()
      ensures state == LoggedOut
    {
      state := LoggedOut;
    }

    method BeginLogin() returns (ok: bool)
      modifies this
      ensures ok <==> old(state) == LoggedOut
      ensures state == if ok then LoggingIn else old(state)
    {
      if state != LoggedOut {
        return false;
      }
      state := LoggingIn;
      return true;
    }

    method LoginSucceeded()
      modifies this
      ensures state == if old(state) == LoggingIn then LoggedIn else old(state)
    {
      if state == LoggingIn {
        state := LoggedIn;
      }
    }

    method LoginFailed()
      modifies this
      ensures state == if old(state) == LoggingIn then LoggedOut else old(state)
    {
      if state == LoggingIn {
        state := LoggedOut;
      }
    }

    method Logout()
      modifies this
      ensures state == LoggedOut
    {
      state := LoggedOut;
    }
  }

  type Error = string

  /** Where a login that ended with `err` leaves the machine: a no-op unless one was in flight. */
  function Ended(m: MachineState, err: Option<Error>): MachineState {
    if m == LoggingIn then (if err.None? then LoggedIn else LoggedOut) else m
  }

  /** Which method a caller is in; for ReLogin, whether its cause asks for a new login. */
  datatype Kind = LoginCall | EnsureCall | ReLoginCall(required: bool) | LogoutCall

  /** Logins are numbered in the order they publish. `since` is how many had published when the
      caller began to wait, which makes it the number of the login in flight then, and `behind`
      that login's leader; `of` is the number of the login whose outcome the caller returned, and
      None when a Logout had cleared it. */
  datatype Pc =
    | Arrived                                   // about to take the mutex
    | Waiting                                   // in the wait loop of Login or ReLogin
    | Ensuring                                  // ReLogin, about to call EnsureLoggedIn
    | EnsureWaiting(since: nat, behind: Option<nat>)  // in the wait loop of EnsureLoggedIn
    | Forced                                    // Login, holding the mutex, machine just reset
    | Claiming                                  // EnsureLoggedIn, holding the mutex, machine just read
    | Leading                                   // between BeginLogin and the end of its request
    | Publishing(err: Option<Error>)            // holding the mutex, machine just moved
    | Led(number: nat, err: Option<Error>)      // returned its own login's outcome
    | Observed(since: nat, behind: Option<nat>, of: Option<nat>, err: Option<Error>)  // returned after waiting
    | Skipped                                   // already logged in, or nothing to handle
    | InProgressRefused                         // "session login is already in progress"
    | LogoutSending                             // found LoggedIn; the logout request is on the wire
    | LogoutEnding                              // acknowledged; about to take the mutex
    | LogoutReturned

  /** `left` is how many logins had published when a Login or ReLogin left its wait loop and reset
      the machine. */
  datatype Call = Call(kind: Kind, pc: Pc, left: Option<nat>) {
    function From(): nat {
      if left.Some? then left.value else 0
    }
  }

  /** `completed` records the outcome of every published login, in order, `leader` the call that
      last moved the machine to LoggingIn, and `holds` the login whose outcome `loginErr` is;
      none of them influences a step. */
  datatype State = State(
    mutex: Option<nat>,
    machine: MachineState,
    loginErr: Option<Error>,
    calls: map<nat, Call>,
    completed: seq<Option<Error>>,
    leader: Option<nat>,
    holds: Option<nat>
  )

  const INIT := State(None, LoggedOut, None, map[], [], None, None)

  function To(s: State, c: nat, pc: Pc): State
    requires c in s.calls
  {
    s.(calls := s.calls[c := s.calls[c].(pc := pc)])
  }

  function Leave(s: State, c: nat, pc: Pc): State
    requires c in s.calls
  {
    s.(calls := s.calls[c := s.calls[c].(pc := pc, left := Some(|s.completed|))])
  }

  /** Login and ReLogin, with the mutex free: wait out a login in flight, then reset. */
  function ForceStep(s: State, c: nat): State
    requires c in s.calls
  {
    if s.machine == LoggingIn then To(s, c, Waiting)
    else if s.calls[c].kind == LoginCall then Leave(s, c, Forced).(machine := LoggedOut, mutex := Some(c))
    else Leave(s, c, Ensuring).(machine := LoggedOut)
  }

  function EnsureStep(s: State, c: nat): State
    requires c in s.calls
  {
    match s.machine
    case LoggedIn => To(s, c, Skipped)
    case LoggingIn => To(s, c, EnsureWaiting(|s.completed|, s.leader))
    case LoggedOut => To(s, c, Claiming).(mutex := Some(c))
  }

  /** BeginLogin, with the mutex held, and then unlock. */
  function ClaimStep(s: State, c: nat): State
    requires c in s.calls
  {
    var s' := s.(mutex := None);
    if s.machine == LoggedOut then To(s', c, Leading).(machine := LoggingIn, leader := Some(c))
    else if s.calls[c].pc.Forced? then To(s', c, InProgressRefused)
    else if s.machine == LoggingIn then To(s', c, EnsureWaiting(|s.completed|, s.leader))
    else To(s', c, Observed(|s.completed|, s.leader, s.holds, s.loginErr))
  }

  function WakeStep(s: State, c: nat): State
    requires c in s.calls && s.calls[c].pc.EnsureWaiting?
  {
    var pc := s.calls[c].pc;
    if s.machine == LoggingIn then s else To(s, c, Observed(pc.since, pc.behind, s.holds, s.loginErr))
  }

  /** The leader's request ended with `outcome`; it takes the mutex and moves the machine. */
  function EndStep(s: State, c: nat, outcome: Option<Error>): State
    requires c in s.calls
  {
    To(s, c, Publishing(outcome)).(machine := Ended(s.machine, outcome), mutex := Some(c), leader := None)
  }

  function PublishStep(s: State, c: nat, err: Option<Error>): State
    requires c in s.calls
  {
    var n := |s.completed|;
    To(s, c, Led(n, err)).(loginErr := err, completed := s.completed + [err], mutex := None, holds := Some(n))
  }

  /** The end of a Logout: the machine is reset and the last outcome forgotten, whatever is in
      flight by now. */
  function LogoutEnd(s: State, c: nat): State
    requires c in s.calls
  {
    To(s, c, LogoutReturned).(machine := LoggedOut, loginErr := None, holds := None)
  }

  /** The next step of a call; `outcome` is what a request ends with. A call that needs the
      mutex while another holds it, or has returned, does nothing. Logout looks at the machine and
      sends its request without the mutex. */
  function CallStep(s: State, c: nat, outcome: Option<Error>): State
    requires c in s.calls
  {
    var pc, kind := s.calls[c].pc, s.calls[c].kind;
    if pc.Forced? || pc.Claiming? then ClaimStep(s, c)
    else if pc.Publishing? then PublishStep(s, c, pc.err)
    else if pc.Arrived? && kind == LogoutCall then
      To(s, c, if s.machine == LoggedIn then LogoutSending else LogoutReturned)
    else if pc.LogoutSending? then To(s, c, if outcome.None? then LogoutEnding else LogoutReturned)
    else if s.mutex.Some? then s
    else match pc
         case Arrived => if kind == EnsureCall then EnsureStep(s, c) else ForceStep(s, c)
         case Waiting => ForceStep(s, c)
         case Ensuring => EnsureStep(s, c)
         case EnsureWaiting(_, _) => WakeStep(s, c)
         case Leading => EndStep(s, c, outcome)
         case LogoutEnding => LogoutEnd(s, c)
         case _ => s
  }

  datatype Action =
    | Arrive(c: nat, kind: Kind)
    | Step(c: nat, outcome: Option<Error>)

  function Apply(s: State, act: Action): State {
    match act
    case Arrive(c, kind) =>
      if c in s.calls then s
      else s.(calls := s.calls[c := Call(kind, if kind == ReLoginCall(false) then Skipped else Arrived, None)])
    case Step(c, outcome) => if c in s.calls then CallStep(s, c, outcome) else s
  }

  function After(s: State, acts: seq<Action>): State {
    if acts == [] then s else Apply(After(s, acts[..|acts| - 1]), acts[|acts| - 1])
  }

  // ---- what every run keeps, Logouts included ----

  predicate HoldsMutex(pc: Pc) {
    pc.Forced? || pc.Claiming? || pc.Publishing?
  }

  /** `err` is the outcome of login `of`, or nothing at all. */
  predicate OutcomeOf(completed: seq<Option<Error>>, of: Option<nat>, err: Option<Error>) {
    if of.Some? then of.value < |completed| && completed[of.value] == err else err.None?
  }

  predicate CallOk(s: State, c: nat)
    requires c in s.calls
  {
    var pc := s.calls[c].pc;
    && (HoldsMutex(pc) <==> s.mutex == Some(c))
    && (pc.Forced? || pc.Claiming? ==> s.machine == LoggedOut)
    && (pc.Led? ==> OutcomeOf(s.completed, Some(pc.number), pc.err))
    && (pc.Observed? ==> OutcomeOf(s.completed, pc.of, pc.err))
    && !pc.InProgressRefused?
  }

  ghost predicate Base(s: State) {
    && (s.mutex.Some? ==> s.mutex.value in s.calls)
    && OutcomeOf(s.completed, s.holds, s.loginErr)
    && (s.holds.Some? ==> s.holds.value == |s.completed| - 1)
    && (forall c {:trigger CallOk(s, c)} :: c in s.calls ==> CallOk(s, c))
  }

  /** The login number `since`, led by `behind`, has published: its leader returned its outcome. */
  predicate Settled(s: State, since: nat, behind: Option<nat>) {
    && since < |s.completed|
    && behind.Some? && behind.value in s.calls && s.calls[behind.value].pc == Led(since, s.completed[since])
  }

  /** It has, or it is the one login in flight, its leader on the wire or about to publish. */
  predicate Awaits(s: State, since: nat, behind: Option<nat>) {
    Settled(s, since, behind) ||
    (since == |s.completed| && behind.Some? && behind.value in s.calls
     && (s.calls[behind.value].pc.Leading? || s.calls[behind.value].pc.Publishing?))
  }

  predicate TurnOk(s: State, c: nat)
    requires c in s.calls
  {
    var pc := s.calls[c].pc;
    && (pc.Leading? <==> s.leader == Some(c))
    && (pc.Publishing? ==> s.machine != LoggingIn)
    && (pc.EnsureWaiting? ==> Awaits(s, pc.since, pc.behind))
    && (pc.Observed? ==> Settled(s, pc.since, pc.behind))
  }

  /** What holds besides while no Logout has ended in the middle of a login: the machine says
      LoggingIn exactly while there is a leader, and waiters wait for logins that are in flight or
      have published. */
  ghost predicate Law(s: State) {
    && (s.machine == LoggingIn <==> s.leader.Some?)
    && (s.leader.Some? ==> s.leader.value in s.calls)
    && (forall c {:trigger TurnOk(s, c)} :: c in s.calls ==> TurnOk(s, c))
  }

  lemma ClaimKeeps(s: State, c: nat)
    requires Base(s) && c in s.calls && (s.calls[c].pc.Forced? || s.calls[c].pc.Claiming?)
    ensures Base(ClaimStep(s, c)) && (Law(s) ==> Law(ClaimStep(s, c)))
  {
    var s' := ClaimStep(s, c);
    assert CallOk(s, c);
    forall d | d in s'.calls ensures CallOk(s', d) { assert CallOk(s, d); }
    if Law(s) {
      assert TurnOk(s, c);
      forall d | d in s'.calls ensures TurnOk(s', d) { assert TurnOk(s, d); }
    }
  }

  lemma PublishKeeps(s: State, c: nat)
    requires Base(s) && c in s.calls && s.calls[c].pc.Publishing?
    ensures Base(PublishStep(s, c, s.calls[c].pc.err)) && (Law(s) ==> Law(PublishStep(s, c, s.calls[c].pc.err)))
  {
    var s' := PublishStep(s, c, s.calls[c].pc.err);
    assert CallOk(s, c);
    forall d | d in s'.calls ensures CallOk(s', d) { assert CallOk(s, d); }
    if Law(s) {
      assert TurnOk(s, c);
      forall d | d in s'.calls ensures TurnOk(s', d) {
        assert TurnOk(s, d) && CallOk(s, d);
        var pc := s.calls[d].pc;
        if pc.EnsureWaiting? && !Settled(s, pc.since, pc.behind) {
          assert CallOk(s, pc.behind.value) && TurnOk(s, pc.behind.value);
        }
      }
    }
  }

  lemma WakeKeeps(s: State, c: nat)
    requires Base(s) && s.mutex.None? && c in s.calls && s.calls[c].pc.EnsureWaiting?
    ensures Base(WakeStep(s, c)) && (Law(s) ==> Law(WakeStep(s, c)))
  {
    var s' := WakeStep(s, c);
    assert CallOk(s, c);
    forall d | d in s'.calls ensures CallOk(s', d) { assert CallOk(s, d); }
    if Law(s) {
      WakesSettled(s, c);
      forall d | d in s'.calls ensures TurnOk(s', d) { assert TurnOk(s, d); }
    }
  }

  /** With the mutex free and no login in flight, whatever a waiter waited for has published. */
  lemma WakesSettled(s: State, c: nat)
    requires Base(s) && Law(s) && s.mutex.None? && c in s.calls && s.calls[c].pc.EnsureWaiting?
    ensures s.machine != LoggingIn ==> Settled(s, s.calls[c].pc.since, s.calls[c].pc.behind)
  {
    assert TurnOk(s, c);
    var behind := s.calls[c].pc.behind;
    assert CallOk(s, behind.value) && TurnOk(s, behind.value);
  }

  lemma ForceKeepsBase(s: State, c: nat)
    requires Base(s) && s.mutex.None? && c in s.calls && (s.calls[c].pc.Waiting? || s.calls[c].pc.Arrived?)
    ensures Base(ForceStep(s, c))
  {
    var s' := ForceStep(s, c);
    assert CallOk(s, c);
    forall d | d in s'.calls ensures CallOk(s', d) { assert CallOk(s, d); }
  }

  lemma ForceKeepsLaw(s: State, c: nat)
    requires Base(s) && s.mutex.None? && c in s.calls && (s.calls[c].pc.Waiting? || s.calls[c].pc.Arrived?)
    requires Law(s)
    ensures Law(ForceStep(s, c))
  {
    var s' := ForceStep(s, c);
    assert TurnOk(s, c);
    forall d | d in s'.calls ensures TurnOk(s', d) { assert TurnOk(s, d); }
  }

  lemma ForceKeeps(s: State, c: nat)
    requires Base(s) && s.mutex.None? && c in s.calls && (s.calls[c].pc.Waiting? || s.calls[c].pc.Arrived?)
    ensures Base(ForceStep(s, c)) && (Law(s) ==> Law(ForceStep(s, c)))
  {
    ForceKeepsBase(s, c);
    if Law(s) {
      ForceKeepsLaw(s, c);
    }
  }

  lemma EnsureKeepsBase(s: State, c: nat)
    requires Base(s) && s.mutex.None? && c in s.calls && (s.calls[c].pc.Arrived? || s.calls[c].pc.Ensuring?)
    ensures Base(EnsureStep(s, c))
  {
    var s' := EnsureStep(s, c);
    assert CallOk(s, c);
    forall d | d in s'.calls ensures CallOk(s', d) { assert CallOk(s, d); }
  }

  lemma EnsureKeepsLaw(s: State, c: nat)
    requires Base(s) && s.mutex.None? && c in s.calls && (s.calls[c].pc.Arrived? || s.calls[c].pc.Ensuring?)
    requires Law(s)
    ensures Law(EnsureStep(s, c))
  {
    var s' := EnsureStep(s, c);
    assert TurnOk(s, c);
    assert s.leader.Some? ==> TurnOk(s, s.leader.value);
    forall d | d in s'.calls ensures TurnOk(s', d) { assert TurnOk(s, d); }
  }

  lemma EnsureKeeps(s: State, c: nat)
    requires Base(s) && s.mutex.None? && c in s.calls && (s.calls[c].pc.Arrived? || s.calls[c].pc.Ensuring?)
    ensures Base(EnsureStep(s, c)) && (Law(s) ==> Law(EnsureStep(s, c)))
  {
    EnsureKeepsBase(s, c);
    if Law(s) {
      EnsureKeepsLaw(s, c);
    }
  }

  lemma EndKeeps(s: State, c: nat, outcome: Option<Error>)
    requires Base(s) && s.mutex.None? && c in s.calls && s.calls[c].pc.Leading?
    ensures Base(EndStep(s, c, outcome)) && (Law(s) ==> Law(EndStep(s, c, outcome)))
  {
    var s' := EndStep(s, c, outcome);
    assert CallOk(s, c);
    forall d | d in s'.calls ensures CallOk(s', d) { assert CallOk(s, d); }
    if Law(s) {
      assert TurnOk(s, c);
      forall d | d in s'.calls ensures TurnOk(s', d) { assert TurnOk(s, d) && CallOk(s, d); }
    }
  }

  lemma LogoutKeeps(s: State, c: nat, outcome: Option<Error>)
    requires Base(s) && c in s.calls
    requires var pc := s.calls[c].pc; (pc.Arrived? && s.calls[c].kind == LogoutCall) || pc.LogoutSending?
    ensures Base(CallStep(s, c, outcome)) && (Law(s) ==> Law(CallStep(s, c, outcome)))
  {
    var s' := CallStep(s, c, outcome);
    assert CallOk(s, c);
    forall d | d in s'.calls ensures CallOk(s', d) { assert CallOk(s, d); }
    if Law(s) {
      assert TurnOk(s, c);
      forall d | d in s'.calls ensures TurnOk(s', d) { assert TurnOk(s, d); }
    }
  }

  /** The end of a Logout keeps the law exactly when no login is in flight: otherwise it leaves a
      leader behind while the machine says LoggedOut. */
  lemma LogoutEndKeeps(s: State, c: nat)
    requires Base(s) && s.mutex.None? && c in s.calls && s.calls[c].pc.LogoutEnding?
    ensures Base(LogoutEnd(s, c))
    ensures Law(s) ==> (Law(LogoutEnd(s, c)) <==> s.machine != LoggingIn)
    ensures Law(s) ==> (SingleLogin(LogoutEnd(s, c)) <==> s.machine != LoggingIn)
  {
    var s' := LogoutEnd(s, c);
    assert CallOk(s, c);
    forall d | d in s'.calls ensures CallOk(s', d) { assert CallOk(s, d); }
    if Law(s) {
      assert TurnOk(s, c);
      assert s.leader.Some? ==> TurnOk(s, s.leader.value) && s'.calls[s.leader.value].pc.Leading?;
      if s.machine != LoggingIn {
        forall d | d in s'.calls ensures TurnOk(s', d) { assert TurnOk(s, d); }
        LawMeansSingleLogin(s');
      }
    }
  }

  /** The machine says LoggingIn exactly while a call is between BeginLogin and the end of its
      request, and then only one is. */
  ghost predicate SingleLogin(s: State) {
    && (s.machine == LoggingIn <==> exists c :: c in s.calls && s.calls[c].pc.Leading?)
    && (forall c, d ::
          c in s.calls && d in s.calls && s.calls[c].pc.Leading? && s.calls[d].pc.Leading? ==> c == d)
  }

  lemma LawMeansSingleLogin(s: State)
    requires Law(s)
    ensures SingleLogin(s)
  {
    forall c | c in s.calls && s.calls[c].pc.Leading? ensures s.leader == Some(c) {
      assert TurnOk(s, c);
    }
    assert s.leader.Some? ==> TurnOk(s, s.leader.value);
  }

  /** Whether the action ends a Logout, and whether it does so in the middle of a login. */
  predicate EndsLogout(s: State, act: Action) {
    act.Step? && act.c in s.calls && s.calls[act.c].pc.LogoutEnding? && s.mutex.None?
  }

  predicate EndsMidLogin(s: State, act: Action) {
    EndsLogout(s, act) && s.machine == LoggingIn
  }

  lemma CallStepKeeps(s: State, c: nat, outcome: Option<Error>)
    requires Base(s) && c in s.calls
    ensures Base(CallStep(s, c, outcome))
    ensures Law(s) && !EndsMidLogin(s, Step(c, outcome)) ==> Law(CallStep(s, c, outcome))
  {
    var pc := s.calls[c].pc;
    assert CallOk(s, c);
    hide Base, Law;
    if pc.Forced? || pc.Claiming? {
      ClaimKeeps(s, c);
    } else if pc.Publishing? {
      PublishKeeps(s, c);
    } else if (pc.Arrived? && s.calls[c].kind == LogoutCall) || pc.LogoutSending? {
      LogoutKeeps(s, c, outcome);
    } else if s.mutex.None? {
      match pc {
        case Arrived => if s.calls[c].kind == EnsureCall { EnsureKeeps(s, c); } else { ForceKeeps(s, c); }
        case Waiting => ForceKeeps(s, c);
        case Ensuring => EnsureKeeps(s, c);
        case EnsureWaiting(_, _) => WakeKeeps(s, c);
        case Leading => EndKeeps(s, c, outcome);
        case LogoutEnding => LogoutEndKeeps(s, c);
        case _ =>
      }
    }
  }

  lemma ApplyKeeps(s: State, act: Action)
    requires Base(s)
    ensures Base(Apply(s, act))
    ensures Law(s) && !EndsMidLogin(s, act) ==> Law(Apply(s, act))
  {
    if act.Step? {
      if act.c in s.calls {
        CallStepKeeps(s, act.c, act.outcome);
      }
    } else {
      var s' := Apply(s, act);
      forall d | d in s'.calls ensures CallOk(s', d) { assert d in s.calls ==> CallOk(s, d); }
      if Law(s) {
        assert s.leader.Some? ==> TurnOk(s, s.leader.value);
        forall d | d in s'.calls ensures TurnOk(s', d) { assert d in s.calls ==> TurnOk(s, d); }
      }
    }
  }

  /** No Logout of the run ended in the middle of a login. */
  predicate NoMidLogout(acts: seq<Action>) {
    acts == [] ||
    (NoMidLogout(acts[..|acts| - 1]) && !EndsMidLogin(After(INIT, acts[..|acts| - 1]), acts[|acts| - 1]))
  }

  /** There was a single login at every point of the run. */
  ghost predicate AlwaysSingle(acts: seq<Action>) {
    SingleLogin(After(INIT, acts)) && (acts == [] || AlwaysSingle(acts[..|acts| - 1]))
  }

  lemma {:induction false} RunKeeps(acts: seq<Action>)
    ensures Base(After(INIT, acts)) && (NoMidLogout(acts) ==> Law(After(INIT, acts)))
  {
    if acts != [] {
      RunKeeps(acts[..|acts| - 1]);
      ApplyKeeps(After(INIT, acts[..|acts| - 1]), acts[|acts| - 1]);
    }
  }

  /** In every run of Login, EnsureLoggedIn, ReLogin and Logout calls: the machine says LoggingIn
      exactly while one call is between BeginLogin and the end of its request, at every point of
      the run, if and only if no Logout ended in the middle of a login. */
  lemma {:induction false} OneLoginAtATimeIff(acts: seq<Action>)
    ensures AlwaysSingle(acts) <==> NoMidLogout(acts)
  {
    RunKeeps(acts);
    if NoMidLogout(acts) {
      LawMeansSingleLogin(After(INIT, acts));
    }
    if acts != [] {
      var init, act := acts[..|acts| - 1], acts[|acts| - 1];
      var s := After(INIT, init);
      OneLoginAtATimeIff(init);
      RunKeeps(init);
      if NoMidLogout(init) && EndsMidLogin(s, act) {
        LogoutEndKeeps(s, act.c);
      }
    }
  }

  /** In every run: no Login is refused as already in progress. */
  lemma NeverRefused(acts: seq<Action>, c: nat)
    requires c in After(INIT, acts).calls
    ensures !After(INIT, acts).calls[c].pc.InProgressRefused?
  {
    RunKeeps(acts);
    assert CallOk(After(INIT, acts), c);
  }

  // ---- what a waiter returns ----

  /** Whether a Logout ended after the last login of the run published. */
  predicate ClearedSince(acts: seq<Action>) {
    if acts == [] then false
    else
      var init, act := acts[..|acts| - 1], acts[|acts| - 1];
      EndsLogout(After(INIT, init), act) ||
      (ClearedSince(init) && |After(INIT, acts).completed| == |After(INIT, init).completed|)
  }

  lemma StepHolds(s: State, act: Action)
    requires Base(s)
    ensures var s' := Apply(s, act);
            if EndsLogout(s, act) then s'.holds.None? && s'.completed == s.completed
            else if |s'.completed| == |s.completed| then s'.holds == s.holds && s'.completed == s.completed
            else s'.holds.Some? && s.completed < s'.completed
  {
    if act.c in s.calls {
      assert CallOk(s, act.c);
    }
  }

  lemma {:induction false} HoldsIff(acts: seq<Action>)
    ensures var s := After(INIT, acts); s.holds.Some? <==> s.completed != [] && !ClearedSince(acts)
  {
    if acts != [] {
      var init := acts[..|acts| - 1];
      HoldsIff(init);
      RunKeeps(init);
      StepHolds(After(INIT, init), acts[|acts| - 1]);
    }
  }

  lemma WakeReturns(s: State, c: nat, outcome: Option<Error>)
    requires Base(s) && Law(s)
    requires s.mutex.None? && s.machine != LoggingIn && c in s.calls && s.calls[c].pc.EnsureWaiting?
    ensures var pc := s.calls[c].pc;
            && c in Apply(s, Step(c, outcome)).calls
            && Apply(s, Step(c, outcome)).calls[c].pc == Observed(pc.since, pc.behind, s.holds, s.loginErr)
            && Settled(s, pc.since, pc.behind) && pc.since < |s.completed|
            && (s.holds.Some? ==> s.holds.value == |s.completed| - 1 && s.loginErr == s.completed[s.holds.value])
            && (s.holds.None? ==> s.loginErr.None?)
  {
    WakesSettled(s, c);
  }

  /** In every run in which no Logout ended in the middle of a login: a caller that wakes after
      waiting for login number `since` returns the outcome of the last login published, or nothing
      if a Logout ended after that; and this is the login it waited for if and only if no other
      login has published since and no Logout has ended since. */
  lemma WaiterReturnsItsLoginIff(acts: seq<Action>, c: nat, outcome: Option<Error>)
    requires NoMidLogout(acts)
    requires var s := After(INIT, acts);
             s.mutex.None? && s.machine != LoggingIn && c in s.calls && s.calls[c].pc.EnsureWaiting?
    ensures var s := After(INIT, acts);
            var since, behind := s.calls[c].pc.since, s.calls[c].pc.behind;
            var of := if ClearedSince(acts) then None else Some(|s.completed| - 1);
            && Settled(s, since, behind)
            && Apply(s, Step(c, outcome)).calls[c].pc ==
               Observed(since, behind, of, if of.None? then None else s.completed[of.value])
            && (of == Some(since) <==> |s.completed| == since + 1 && !ClearedSince(acts))
  {
    hide *;
    RunKeeps(acts);
    HoldsIff(acts);
    WakeReturns(After(INIT, acts), c, outcome);
  }

  /** So, at any later point of the run: a caller that returned the login it waited for returned
      what that login's leader returned; one that returned another's returned a later one's. */
  lemma WaitersAgreeWithTheirLeader(acts: seq<Action>, c: nat)
    requires NoMidLogout(acts)
    requires var s := After(INIT, acts); c in s.calls && s.calls[c].pc.Observed?
    ensures var s := After(INIT, acts);
            var pc := s.calls[c].pc;
            && Settled(s, pc.since, pc.behind)
            && OutcomeOf(s.completed, pc.of, pc.err)
            && (pc.of == Some(pc.since) ==> pc.err == s.calls[pc.behind.value].pc.err)
  {
    RunKeeps(acts);
    assert CallOk(After(INIT, acts), c) && TurnOk(After(INIT, acts), c);
  }

  // ---- what a call that returned has brought about ----

  /** A success published at or after number `n`. */
  ghost predicate SucceededSince(completed: seq<Option<Error>>, n: nat) {
    exists k :: n <= k < |completed| && completed[k].None?
  }

  /** A success is being published: the machine has moved and the outcome is not yet recorded. */
  predicate MidSuccess(s: State) {
    s.mutex.Some? && s.mutex.value in s.calls && s.calls[s.mutex.value].pc == Publishing(None)
  }

  /** What a call has come to since it left its wait loop, if it had one. */
  ghost predicate TurnsUp(s: State, call: Call) {
    var pc, from := call.pc, call.From();
    && from <= |s.completed|
    && (call.kind == LoginCall ==>
          pc.Arrived? || pc.Waiting? || pc.Forced? || pc.Leading? || pc.Publishing? || pc.Led?)
    && (call.kind == LoginCall || call.kind == ReLoginCall(true) ==>
          call.left.Some? || pc.Arrived? || pc.Waiting?)
    && (call.left.Some? || pc.Waiting? ==> call.kind == LoginCall || call.kind == ReLoginCall(true))
    && (pc.Ensuring? ==> call.kind == ReLoginCall(true))
    && (pc.Forced? ==> call.kind == LoginCall)
    && (call.kind == ReLoginCall(false) ==> pc.Skipped?)
    && (call.kind == LogoutCall ==> pc.Arrived? || pc.LogoutSending? || pc.LogoutEnding? || pc.LogoutReturned?)
    && (pc.LogoutSending? || pc.LogoutEnding? || pc.LogoutReturned? ==> call.kind == LogoutCall)
    && (pc.Led? ==> pc.number >= from)
    && (pc.EnsureWaiting? || pc.Observed? ==> pc.since >= from)
    && (pc.Ensuring? && s.machine == LoggedIn ==> SucceededSince(s.completed, from) || MidSuccess(s))
    && (pc.Skipped? && call.kind != ReLoginCall(false) ==> SucceededSince(s.completed, from))
  }

  ghost predicate AllTurnUp(s: State) {
    && (s.machine == LoggedIn ==> SucceededSince(s.completed, 0) || MidSuccess(s))
    && (forall c {:trigger TurnsUp(s, s.calls[c])} :: c in s.calls ==> TurnsUp(s, s.calls[c]))
  }

  lemma SuccessStays(completed: seq<Option<Error>>, completed': seq<Option<Error>>, n: nat)
    requires completed <= completed' && SucceededSince(completed, n)
    ensures SucceededSince(completed', n)
  {
    var k :| n <= k < |completed| && completed[k].None?;
    assert completed'[k].None?;
  }

  /** From `s` to `s'` nobody but perhaps the mover could lose track of a success. */
  ghost predicate TracksSuccess(s: State, s': State) {
    && s.completed <= s'.completed
    && (s'.machine == LoggedIn ==>
          || MidSuccess(s')
          || (s.machine == LoggedIn &&
              (MidSuccess(s) ==> |s.completed| < |s'.completed| && s'.completed[|s.completed|].None?)))
  }

  lemma OthersTurnUp(s: State, s': State, call: Call)
    requires TurnsUp(s, call) && TracksSuccess(s, s')
    ensures TurnsUp(s', call)
  {
    var from := call.From();
    if SucceededSince(s.completed, from) {
      SuccessStays(s.completed, s'.completed, from);
    }
    if MidSuccess(s) && |s.completed| < |s'.completed| {
      var n := |s.completed|;
      assert s'.completed[n].None? ==> SucceededSince(s'.completed, from);
    }
  }

  /** A step of `c` keeps the law for everyone if it does for `c`. */
  lemma StepTurnsUp(s: State, s': State, c: nat)
    requires AllTurnUp(s) && TracksSuccess(s, s')
    requires c in s'.calls && TurnsUp(s', s'.calls[c])
    requires forall d :: d in s'.calls && d != c ==> d in s.calls && s'.calls[d] == s.calls[d]
    ensures AllTurnUp(s')
  {
    OthersTurnUp(s, s', Call(ReLoginCall(true), Ensuring, Some(0)));
    forall d | d in s'.calls ensures TurnsUp(s', s'.calls[d]) {
      if d != c {
        OthersTurnUp(s, s', s.calls[d]);
      }
    }
  }

  lemma ClaimTurnsUp(s: State, c: nat)
    requires Base(s) && AllTurnUp(s) && c in s.calls && (s.calls[c].pc.Forced? || s.calls[c].pc.Claiming?)
    ensures AllTurnUp(ClaimStep(s, c))
  {
    assert CallOk(s, c) && TurnsUp(s, s.calls[c]);
    StepTurnsUp(s, ClaimStep(s, c), c);
  }

  lemma PublishTurnsUp(s: State, c: nat)
    requires Base(s) && AllTurnUp(s) && c in s.calls && s.calls[c].pc.Publishing?
    ensures AllTurnUp(PublishStep(s, c, s.calls[c].pc.err))
  {
    assert CallOk(s, c) && TurnsUp(s, s.calls[c]);
    StepTurnsUp(s, PublishStep(s, c, s.calls[c].pc.err), c);
  }

  lemma ForceTurnsUp(s: State, c: nat)
    requires AllTurnUp(s) && s.mutex.None? && c in s.calls && (s.calls[c].pc.Waiting? || s.calls[c].pc.Arrived?)
    requires s.calls[c].kind == LoginCall || s.calls[c].kind == ReLoginCall(true)
    ensures AllTurnUp(ForceStep(s, c))
  {
    assert TurnsUp(s, s.calls[c]);
    StepTurnsUp(s, ForceStep(s, c), c);
  }

  lemma EnsureTurnsUp(s: State, c: nat)
    requires AllTurnUp(s) && s.mutex.None? && c in s.calls
    requires s.calls[c].pc.Ensuring? || (s.calls[c].pc.Arrived? && s.calls[c].kind == EnsureCall)
    ensures AllTurnUp(EnsureStep(s, c))
  {
    assert TurnsUp(s, s.calls[c]);
    StepTurnsUp(s, EnsureStep(s, c), c);
  }

  lemma WakeTurnsUp(s: State, c: nat)
    requires AllTurnUp(s) && s.mutex.None? && c in s.calls && s.calls[c].pc.EnsureWaiting?
    ensures AllTurnUp(WakeStep(s, c))
  {
    assert TurnsUp(s, s.calls[c]);
    StepTurnsUp(s, WakeStep(s, c), c);
  }

  lemma EndTurnsUp(s: State, c: nat, outcome: Option<Error>)
    requires AllTurnUp(s) && s.mutex.None? && c in s.calls && s.calls[c].pc.Leading?
    ensures AllTurnUp(EndStep(s, c, outcome))
  {
    assert TurnsUp(s, s.calls[c]);
    StepTurnsUp(s, EndStep(s, c, outcome), c);
  }

  lemma LogoutTurnsUp(s: State, c: nat, pc: Pc)
    requires AllTurnUp(s) && c in s.calls && s.calls[c].kind == LogoutCall
    requires pc.LogoutSending? || pc.LogoutEnding? || pc.LogoutReturned?
    ensures AllTurnUp(To(s, c, pc))
  {
    assert TurnsUp(s, s.calls[c]);
    StepTurnsUp(s, To(s, c, pc), c);
  }

  lemma LogoutEndTurnsUp(s: State, c: nat)
    requires AllTurnUp(s) && c in s.calls && s.calls[c].kind == LogoutCall
    ensures AllTurnUp(LogoutEnd(s, c))
  {
    assert TurnsUp(s, s.calls[c]);
    StepTurnsUp(s, LogoutEnd(s, c), c);
  }

  lemma CallStepTurnsUp(s: State, c: nat, outcome: Option<Error>)
    requires Base(s) && AllTurnUp(s) && c in s.calls
    ensures AllTurnUp(CallStep(s, c, outcome))
  {
    var pc, kind := s.calls[c].pc, s.calls[c].kind;
    assert TurnsUp(s, s.calls[c]);
    hide Base, AllTurnUp;
    if kind == LogoutCall {
      if pc.LogoutEnding? && s.mutex.None? {
        LogoutEndTurnsUp(s, c);
      } else if pc.Arrived? {
        LogoutTurnsUp(s, c, if s.machine == LoggedIn then LogoutSending else LogoutReturned);
      } else if pc.LogoutSending? {
        LogoutTurnsUp(s, c, if outcome.None? then LogoutEnding else LogoutReturned);
      }
    } else if pc.Forced? || pc.Claiming? {
      ClaimTurnsUp(s, c);
    } else if pc.Publishing? {
      PublishTurnsUp(s, c);
    } else if s.mutex.None? {
      if pc.Ensuring? || (pc.Arrived? && kind == EnsureCall) {
        EnsureTurnsUp(s, c);
      } else if pc.Arrived? || pc.Waiting? {
        ForceTurnsUp(s, c);
      } else if pc.EnsureWaiting? {
        WakeTurnsUp(s, c);
      } else if pc.Leading? {
        EndTurnsUp(s, c, outcome);
      }
    }
  }

  lemma {:induction false} RunTurnsUp(acts: seq<Action>)
    ensures AllTurnUp(After(INIT, acts))
  {
    if acts != [] {
      var init, act := acts[..|acts| - 1], acts[|acts| - 1];
      var s := After(INIT, init);
      RunTurnsUp(init);
      RunKeeps(init);
      hide Base;
      if act.Step? {
        if act.c in s.calls {
          CallStepTurnsUp(s, act.c, act.outcome);
        }
      } else if act.c !in s.calls {
        StepTurnsUp(s, Apply(s, act), act.c);
      }
    }
  }

  predicate Returned(pc: Pc) {
    pc.Led? || pc.Observed? || pc.Skipped? || pc.InProgressRefused? || pc.LogoutReturned?
  }

  /** In every run: a Login that has returned led a login of its own, which published after it left
      the wait loop, and returned that login's outcome. */
  lemma LoginAlwaysLeads(acts: seq<Action>, c: nat)
    requires var s := After(INIT, acts); c in s.calls && s.calls[c].kind == LoginCall && Returned(s.calls[c].pc)
    ensures var s := After(INIT, acts);
            var call := s.calls[c];
            && call.left.Some? && call.pc.Led?
            && call.left.value <= call.pc.number < |s.completed| && s.completed[call.pc.number] == call.pc.err
  {
    RunTurnsUp(acts);
    RunKeeps(acts);
    assert TurnsUp(After(INIT, acts), After(INIT, acts).calls[c]) && CallOk(After(INIT, acts), c);
  }

  /** In every run: a required ReLogin that has returned led a login that published after it left the
      wait loop, or waited for one; it sent and waited for nothing only if a success published after
      that. An EnsureLoggedIn that did neither found a login that had succeeded. */
  lemma ReLoginForcesALogin(acts: seq<Action>, c: nat)
    requires var s := After(INIT, acts); c in s.calls && Returned(s.calls[c].pc)
    requires After(INIT, acts).calls[c].kind in {ReLoginCall(true), EnsureCall}
    ensures var s := After(INIT, acts);
            var call := s.calls[c];
            && (call.kind == ReLoginCall(true) ==> call.left.Some?)
            && match call.pc
               case Led(n, err) => call.From() <= n < |s.completed| && s.completed[n] == err
               case Observed(since, _, _, _) => since >= call.From()
               case Skipped => exists k :: call.From() <= k < |s.completed| && s.completed[k].None?
               case _ => false
  {
    RunTurnsUp(acts);
    RunKeeps(acts);
    assert TurnsUp(After(INIT, acts), After(INIT, acts).calls[c]) && CallOk(After(INIT, acts), c);
  }

  // ---- what the manager believes ----

  /** Whether the action ends the exchange of a login that no Logout has overtaken. */
  predicate EndsLogin(s: State, act: Action) {
    && act.Step? && act.c in s.calls && s.mutex.None? && s.machine == LoggingIn
    && s.calls[act.c].pc.Leading?
  }

  /** Whether the action lets a Login or ReLogin leave its wait loop. */
  predicate Resets(s: State, act: Action) {
    && act.Step? && act.c in s.calls && s.mutex.None? && s.machine != LoggingIn
    && s.calls[act.c].kind in {LoginCall, ReLoginCall(true)}
    && (s.calls[act.c].pc.Arrived? || s.calls[act.c].pc.Waiting?)
  }

  /** Whether, of the ends of logins, the resets and the ends of Logouts, the last was the success
      of a login. */
  predicate Believes(acts: seq<Action>) {
    if acts == [] then false
    else
      var init, act := acts[..|acts| - 1], acts[|acts| - 1];
      var s := After(INIT, init);
      if EndsLogin(s, act) then act.outcome.None?
      else if Resets(s, act) || EndsLogout(s, act) then false
      else Believes(init)
  }

  lemma MachineMoves(s: State, act: Action)
    requires Base(s) && AllTurnUp(s)
    ensures var s' := Apply(s, act);
            if EndsLogin(s, act) then s'.machine == LoggedIn <==> act.outcome.None?
            else if Resets(s, act) || EndsLogout(s, act) then s'.machine == LoggedOut
            else s'.machine == LoggedIn <==> s.machine == LoggedIn
  {
    if act.c in s.calls {
      assert CallOk(s, act.c) && TurnsUp(s, s.calls[act.c]);
    }
    hide Base, AllTurnUp;
  }

  /** In every run: IsLoggedIn answers yes exactly when the last of these was a login that
      succeeded: no Login or ReLogin has reset the machine since, no later login failed, and no
      Logout ended. In particular an acknowledged Logout leaves the manager logged out. */
  lemma {:induction false} LoggedInIff(acts: seq<Action>)
    ensures After(INIT, acts).machine == LoggedIn <==> Believes(acts)
  {
    if acts != [] {
      var init := acts[..|acts| - 1];
      LoggedInIff(init);
      RunKeeps(init);
      RunTurnsUp(init);
      MachineMoves(After(INIT, init), acts[|acts| - 1]);
      hide Base, AllTurnUp, Apply;
    }
  }

  // ---- runs in which the condition fails ----

  lemma Extend(acts: seq<Action>, s: State, act: Action) returns (acts': seq<Action>, s': State)
    requires After(INIT, acts) == s
    ensures After(INIT, acts') == s' == Apply(s, act)
    ensures NoMidLogout(acts') <==> NoMidLogout(acts) && !EndsMidLogin(s, act)
  {
    acts', s' := acts + [act], Apply(s, act);
    assert acts'[..|acts'| - 1] == acts;
  }

  /** With no login in flight, an EnsureLoggedIn on a machine that is LoggedOut leads. */
  lemma EnsureLeads(acts: seq<Action>, s: State, c: nat) returns (acts': seq<Action>, s': State)
    requires After(INIT, acts) == s && s.mutex.None? && s.machine == LoggedOut && c !in s.calls
    ensures After(INIT, acts') == s' && (NoMidLogout(acts') <==> NoMidLogout(acts))
    ensures s' == s.(calls := s.calls[c := Call(EnsureCall, Leading, None)], machine := LoggingIn, leader := Some(c))
  {
    acts', s' := Extend(acts, s, Arrive(c, EnsureCall));
    acts', s' := Extend(acts', s', Step(c, None));
    acts', s' := Extend(acts', s', Step(c, None));
  }

  lemma LoginLeads(acts: seq<Action>, s: State, c: nat) returns (acts': seq<Action>, s': State)
    requires After(INIT, acts) == s && s.mutex.None? && s.machine != LoggingIn && c !in s.calls
    ensures After(INIT, acts') == s' && (NoMidLogout(acts') <==> NoMidLogout(acts))
    ensures s' == s.(calls := s.calls[c := Call(LoginCall, Leading, Some(|s.completed|))],
                     machine := LoggingIn, leader := Some(c))
  {
    acts', s' := Extend(acts, s, Arrive(c, LoginCall));
    acts', s' := Extend(acts', s', Step(c, None));
    acts', s' := Extend(acts', s', Step(c, None));
  }

  lemma EnsureWaits(acts: seq<Action>, s: State, c: nat) returns (acts': seq<Action>, s': State)
    requires After(INIT, acts) == s && s.mutex.None? && s.machine == LoggingIn && c !in s.calls
    ensures After(INIT, acts') == s' && (NoMidLogout(acts') <==> NoMidLogout(acts))
    ensures s' == s.(calls := s.calls[c := Call(EnsureCall, EnsureWaiting(|s.completed|, s.leader), None)])
  {
    acts', s' := Extend(acts, s, Arrive(c, EnsureCall));
    acts', s' := Extend(acts', s', Step(c, None));
  }

  lemma LeaderPublishes(acts: seq<Action>, s: State, c: nat, err: Option<Error>)
    returns (acts': seq<Action>, s': State)
    requires After(INIT, acts) == s && s.mutex.None? && c in s.calls && s.calls[c].pc.Leading?
    ensures After(INIT, acts') == s' && (NoMidLogout(acts') <==> NoMidLogout(acts))
    ensures s' == State(None, Ended(s.machine, err), err,
                        s.calls[c := s.calls[c].(pc := Led(|s.completed|, err))],
                        s.completed + [err], None, Some(|s.completed|))
  {
    acts', s' := Extend(acts, s, Step(c, err));
    acts', s' := Extend(acts', s', Step(c, None));
  }

  lemma LogoutIsSent(acts: seq<Action>, s: State, c: nat) returns (acts': seq<Action>, s': State)
    requires After(INIT, acts) == s && s.machine == LoggedIn && c !in s.calls
    ensures After(INIT, acts') == s' && (NoMidLogout(acts') <==> NoMidLogout(acts))
    ensures s' == s.(calls := s.calls[c := Call(LogoutCall, LogoutEnding, None)])
  {
    acts', s' := Extend(acts, s, Arrive(c, LogoutCall));
    acts', s' := Extend(acts', s', Step(c, None));
    acts', s' := Extend(acts', s', Step(c, None));
  }

  lemma WaiterWakes(acts: seq<Action>, s: State, c: nat) returns (acts': seq<Action>, s': State)
    requires After(INIT, acts) == s && s.mutex.None? && s.machine != LoggingIn
    requires c in s.calls && s.calls[c].pc.EnsureWaiting?
    ensures After(INIT, acts') == s' && (NoMidLogout(acts') <==> NoMidLogout(acts))
    ensures s' == To(s, c, Observed(s.calls[c].pc.since, s.calls[c].pc.behind, s.holds, s.loginErr))
  {
    acts', s' := Extend(acts, s, Step(c, None));
  }

  lemma LogoutEnds(acts: seq<Action>, s: State, c: nat) returns (acts': seq<Action>, s': State)
    requires After(INIT, acts) == s && s.mutex.None? && c in s.calls && s.calls[c].pc.LogoutEnding?
    ensures After(INIT, acts') == s' == LogoutEnd(s, c)
    ensures NoMidLogout(acts') <==> NoMidLogout(acts) && s.machine != LoggingIn
  {
    acts', s' := Extend(acts, s, Step(c, None));
  }

  lemma Start() returns (acts: seq<Action>, s: State)
    ensures After(INIT, acts) == s == INIT && NoMidLogout(acts)
  {
    acts, s := [], INIT;
  }

  /** A waiter asleep through its own failed login and the next one returns the second outcome,
      where its leader returned the first. */
  lemma WaiterMayMissItsLogin() returns (acts: seq<Action>)
    ensures NoMidLogout(acts)
    ensures var s := After(INIT, acts);
            && s.completed == [Some("refused"), None]
            && 0 in s.calls && s.calls[0].pc == Led(0, Some("refused"))
            && 1 in s.calls && s.calls[1].pc == Observed(0, Some(0), Some(1), None)
  {
    hide After, NoMidLogout, Apply;
    var s;
    acts, s := Start();
    acts, s := EnsureLeads(acts, s, 0);
    acts, s := EnsureWaits(acts, s, 1);
    acts, s := LeaderPublishes(acts, s, 0, Some("refused"));
    acts, s := EnsureLeads(acts, s, 2);
    acts, s := LeaderPublishes(acts, s, 2, None);
    acts, s := WaiterWakes(acts, s, 1);
  }

  /** A login succeeds, a Logout is sent, and before it ends a Login starts over. */
  lemma LogoutMeetsLogin() returns (acts: seq<Action>, s: State)
    ensures After(INIT, acts) == s && NoMidLogout(acts)
    ensures s.mutex.None? && s.machine == LoggingIn && s.completed == [None] && s.leader == Some(2)
    ensures s.calls == map[0 := Call(EnsureCall, Led(0, None), None), 1 := Call(LogoutCall, LogoutEnding, None),
                           2 := Call(LoginCall, Leading, Some(1))]
  {
    hide After, NoMidLogout, Apply;
    acts, s := Start();
    acts, s := EnsureLeads(acts, s, 0);
    acts, s := LeaderPublishes(acts, s, 0, None);
    acts, s := LogoutIsSent(acts, s, 1);
    acts, s := LoginLeads(acts, s, 2);
  }

  /** The Logout ends in the middle of that login, and a second call sends its own request while
      the first is still on the wire. */
  lemma LogoutMayDoubleTheLogin() returns (acts: seq<Action>)
    ensures !NoMidLogout(acts)
    ensures var s := After(INIT, acts);
            2 in s.calls && 3 in s.calls && s.calls[2].pc.Leading? && s.calls[3].pc.Leading?
  {
    hide After, NoMidLogout, Apply;
    var s;
    acts, s := LogoutMeetsLogin();
    acts, s := LogoutEnds(acts, s, 1);
    acts, s := EnsureLeads(acts, s, 3);
  }

  /** Or the login fails before the Logout ends, in the middle of nothing, and a waiter that wakes
      after that is told that all is well. */
  lemma LogoutMayHideAFailure() returns (acts: seq<Action>)
    ensures NoMidLogout(acts)
    ensures var s := After(INIT, acts);
            && s.machine == LoggedOut && s.completed == [None, Some("refused")]
            && 3 in s.calls && s.calls[3].pc == Observed(1, Some(2), None, None)
  {
    hide After, NoMidLogout, Apply;
    var s;
    acts, s := LogoutMeetsLogin();
    acts, s := EnsureWaits(acts, s, 3);
    acts, s := LeaderPublishes(acts, s, 2, Some("refused"));
    acts, s := LogoutEnds(acts, s, 1);
    acts, s := WaiterWakes(acts, s, 3);
  }
}
