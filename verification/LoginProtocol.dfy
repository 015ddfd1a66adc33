/** SessionService over internal/auth as a transition system. Any number of `Login` and
    `Logout` calls for any accounts are in progress at once; one action is one critical
    section, one store call, one clock read or one exchange with the Gateway, so a run of
    actions is an interleaving of the calls. The store may fail at any call, in which case it
    changes nothing; the Gateway may answer anything; the clock never runs backwards. */
module LoginProtocol {
  import opened Prelude
  import opened Auth
  import opened LoginGate
  import opened TokenManager

  /** Where the leader of an attempt is. */
  datatype Stage =
    | ReReading                              // about to re-read the store
    | ReRead(held: Option<Session>)          // the store answered; about to read the clock
    | InnerBeginning                         // about to claim the inner flight
    | InnerJoined(ch: nat)                   // lost the inner flight; waiting for its channel
    | InnerWoken                             // that flight ended; about to read the store
    | Flying(ch: nat)                        // owns the inner flight
    | Sent(ch: nat)                          // the request is on the wire
    | Tokened(ch: nat, token: string)        // acknowledged; about to read the clock
    | Stamped(ch: nat, stamped: Session)     // about to save
    | Stored(ch: nat)                        // saved; about to read it back
    | Ending(ch: nat, outcome: Outcome)      // about to release the inner flight
    | Settling(outcome: Outcome)             // about to discard a session the Gateway refused
    | Publishing(outcome: Outcome)           // about to publish

  /** Where a call is. `readAt` is when the leader found no live session, and None when its
      re-read of the store failed or has not happened. `Finished` records the attempt whose
      outcome the call returned, if it led or joined one. */
  datatype Pc =
    | Reading
    | Read(held: Option<Session>)
    | AtGate
    | Joined(attempt: nat)
    | Lead(attempt: nat, readAt: Option<int>, stage: Stage)
    | Finished(via: Option<nat>, result: Outcome)
    | GaveUp(attempt: nat)                   // a joiner that returned its context's error
    | LogoutReading
    | LogoutSent
    | LogoutClearing
    | LogoutDone(error: Option<Error>, at: nat)  // what it returned, and the length of the log then

  datatype Call = Call(account: AccountId, pc: Pc)

  /** Which call of a leader the store failed. */
  datatype StoreCall = AtReRead | AtSave | AtReadBack

  /** What happened, in order: what the store, the encryption and the Gateway answered, and when
      the clock was read. */
  datatype Event =
    | CallerRead(call: nat, account: AccountId)                  // the store answered a caller
    | CallerChecked(call: nat, account: AccountId, now: int)     // which compared that with the clock
    | CallerFault(call: nat, account: AccountId, error: Error)   // the store failed a caller
    | LeaderRead(attempt: nat, account: AccountId)               // the store answered a leader's re-read
    | LeaderChecked(attempt: nat, account: AccountId, now: int)
    | EncryptFailed(attempt: nat, account: AccountId, error: Error)
    | Requested(attempt: nat, account: AccountId, now: int)
    | Refused(attempt: nat, account: AccountId, error: Error)
    | Accepted(attempt: nat, account: AccountId, token: string)
    | Saved(attempt: nat, account: AccountId, session: Session)
    | ReadAgain(attempt: nat, account: AccountId)                // the store answered the read-back
    | StoreFault(attempt: nat, account: AccountId, at: StoreCall, error: Error)
    | Discarded(attempt: nat, account: AccountId, removed: Option<Session>, readAt: Option<int>)
    | DiscardFailed(attempt: nat, account: AccountId)
    | LogoutAnswered(call: nat, account: AccountId, accepted: bool)
    | LoggedOut(account: AccountId)

  /** `leaders` names the call that leads each account's pending attempt, and `log` what has
      happened; neither influences a step. */
  datatype State = State(
    clock: int,
    store: map<AccountId, Session>,
    gate: Gate,
    tm: Flights,
    calls: map<nat, Call>,
    leaders: map<AccountId, nat>,
    log: seq<Event>
  )

  /** A fresh service: no call has been made, and its store holds whatever it was given, each
      session filed under its own account. */
  predicate Initial(s: State) {
    && s.gate == Gate(map[], [])
    && s.tm == Flights(map[], map[], [])
    && s.calls == map[]
    && s.leaders == map[]
    && s.log == []
    && StoreKeyed(s)
  }

  predicate StoreKeyed(s: State) {
    forall a :: a in s.store ==> s.store[a].accountId == a
  }

  /** What the environment decides for one step of a call: whether the store or the
      encryption fails, what the Gateway answers, and whether the caller gives up waiting. */
  datatype Choice = Choice(fault: Option<Error>, reply: Reply, cancelled: bool)

  datatype Reply = Token(token: string) | Rejected(error: Error)

  datatype Action =
    | Tick(seconds: nat)
    | CallLogin(c: nat, account: AccountId, blankPassword: bool)
    | CallLogout(c: nat, account: AccountId)
    | Step(c: nat, choice: Choice)

  predicate LeadsAt(s: State, c: nat) {
    c in s.calls && s.calls[c].pc.Lead?
  }

  function StageOf(s: State, c: nat): Stage
    requires LeadsAt(s, c)
  {
    s.calls[c].pc.stage
  }

  function To(s: State, c: nat, pc: Pc): State
    requires c in s.calls
  {
    s.(calls := s.calls[c := s.calls[c].(pc := pc)])
  }

  function Advance(s: State, c: nat, stage: Stage): State
    requires LeadsAt(s, c)
  {
    To(s, c, s.calls[c].pc.(stage := stage))
  }

  function Note(s: State, e: Event): State {
    s.(log := s.log + [e])
  }

  /** What `Login` returns for an outcome: a session for no account is reported as an error. */
  function Delivered(o: Outcome): Outcome {
    if o.Success? && o.session.accountId == NO_ACCOUNT then Failure(SessionNotReturned) else o
  }

  /** What reading the store back after a login answers. */
  function FromStore(s: State, a: AccountId): Outcome {
    if a in s.store then Success(s.store[a]) else Failure(SessionNotStored)
  }

  predicate Live(held: Option<Session>, now: int) {
    held.Some? && !held.value.ShouldRefresh(now)
  }

  /** The gate: lead a new attempt, or join the pending one. */
  function Enter(s: State, c: nat): State
    requires c in s.calls
  {
    var a := s.calls[c].account;
    var t := s.gate.Handed(a);
    var s' := s.(gate := s.gate.Begin(a));
    if s.gate.Leads(a) then To(s'.(leaders := s.leaders[a := c]), c, Lead(t, None, ReReading))
    else To(s', c, Joined(t))
  }

  /** A joiner returns the published outcome, or its own cancellation, or keeps waiting. */
  function Await(s: State, c: nat, cancelled: bool): State
    requires c in s.calls && s.calls[c].pc.Joined?
  {
    var t := s.calls[c].pc.attempt;
    if cancelled then To(s, c, GaveUp(t))
    else if t < |s.gate.attempts| && s.gate.attempts[t].closes > 0 then
      To(s, c, Finished(Some(t), Delivered(s.gate.attempts[t].outcome)))
    else s
  }

  /** The leader's re-read of the store; its error is dropped and the login goes ahead. */
  function LeadRead(s: State, c: nat, fault: Option<Error>): State
    requires LeadsAt(s, c)
  {
    var a := s.calls[c].account;
    var t := s.calls[c].pc.attempt;
    if fault.Some? then Note(Advance(s, c, InnerBeginning), StoreFault(t, a, AtReRead, fault.value))
    else Note(Advance(s, c, ReRead(Lookup(s.store, a))), LeaderRead(t, a))
  }

  function LeadClock(s: State, c: nat): State
    requires LeadsAt(s, c) && StageOf(s, c).ReRead?
  {
    var held, t := StageOf(s, c).held, s.calls[c].pc.attempt;
    var s' :=
      if Live(held, s.clock) then Advance(s, c, Publishing(Success(held.value)))
      else To(s, c, Lead(t, Some(s.clock), InnerBeginning));
    Note(s', LeaderChecked(t, s.calls[c].account, s.clock))
  }

  function InnerBegin(s: State, c: nat): State
    requires LeadsAt(s, c)
  {
    var a := s.calls[c].account;
    var ch := s.tm.Handed(a);
    Advance(s.(tm := s.tm.Begin(a)), c, if s.tm.InProgress(a) then InnerJoined(ch) else Flying(ch))
  }

  /** The inner flight's joiner, which a call led by the outer gate never becomes. */
  function InnerAwait(s: State, c: nat, cancelled: bool): State
    requires LeadsAt(s, c) && StageOf(s, c).InnerJoined?
  {
    var ch := StageOf(s, c).ch;
    if cancelled then Advance(s, c, Settling(Failure(ContextDone)))
    else if ch < |s.tm.channels| && s.tm.channels[ch].closes > 0 then Advance(s, c, InnerWoken)
    else s
  }

  /** Encrypting the password may fail; otherwise the request goes out. */
  function Send(s: State, c: nat, fault: Option<Error>): State
    requires LeadsAt(s, c) && StageOf(s, c).Flying?
  {
    var ch, t, a := StageOf(s, c).ch, s.calls[c].pc.attempt, s.calls[c].account;
    if fault.Some? then Note(Advance(s, c, Ending(ch, Failure(fault.value))), EncryptFailed(t, a, fault.value))
    else Note(Advance(s, c, Sent(ch)), Requested(t, a, s.clock))
  }

  function Receive(s: State, c: nat, reply: Reply): State
    requires LeadsAt(s, c) && StageOf(s, c).Sent?
  {
    var ch, t, a := StageOf(s, c).ch, s.calls[c].pc.attempt, s.calls[c].account;
    if reply.Rejected? then Note(Advance(s, c, Ending(ch, Failure(reply.error))), Refused(t, a, reply.error))
    else Note(Advance(s, c, Tokened(ch, reply.token)), Accepted(t, a, reply.token))
  }

  function Stamp(s: State, c: nat): State
    requires LeadsAt(s, c) && StageOf(s, c).Tokened?
  {
    var st := StageOf(s, c);
    Advance(s, c, Stamped(st.ch, StampSession(s.calls[c].account, st.token, s.clock)))
  }

  function Save(s: State, c: nat, fault: Option<Error>): State
    requires LeadsAt(s, c) && StageOf(s, c).Stamped?
  {
    var st, t, a := StageOf(s, c), s.calls[c].pc.attempt, s.calls[c].account;
    if fault.Some? then
      Note(Advance(s, c, Ending(st.ch, Failure(fault.value))), StoreFault(t, a, AtSave, fault.value))
    else Note(Advance(s, c, Stored(st.ch)).(store := s.store[a := st.stamped]), Saved(t, a, st.stamped))
  }

  function ReadBack(s: State, c: nat, fault: Option<Error>): State
    requires LeadsAt(s, c) && StageOf(s, c).Stored?
  {
    var ch, t, a := StageOf(s, c).ch, s.calls[c].pc.attempt, s.calls[c].account;
    if fault.Some? then
      Note(Advance(s, c, Ending(ch, Failure(fault.value))), StoreFault(t, a, AtReadBack, fault.value))
    else Note(Advance(s, c, Ending(ch, FromStore(s, a))), ReadAgain(t, a))
  }

  function End(s: State, c: nat): State
    requires LeadsAt(s, c) && StageOf(s, c).Ending?
  {
    Advance(s.(tm := s.tm.End(s.calls[c].account)), c, Settling(StageOf(s, c).outcome))
  }

  /** The stored session goes if, and only if, the login failed because the Gateway no longer
      accepts it; the store's own error on that clear is dropped. */
  function Settle(s: State, c: nat, fault: Option<Error>): State
    requires LeadsAt(s, c) && StageOf(s, c).Settling?
  {
    var o, t, a := StageOf(s, c).outcome, s.calls[c].pc.attempt, s.calls[c].account;
    var s' := Advance(s, c, Publishing(o));
    if o.Success? || !SessionUnusable(o.error) then s'
    else if fault.Some? then Note(s', DiscardFailed(t, a))
    else Note(s'.(store := s.store - {a}), Discarded(t, a, Lookup(s.store, a), s.calls[c].pc.readAt))
  }

  function Publish(s: State, c: nat): State
    requires LeadsAt(s, c) && StageOf(s, c).Publishing?
  {
    var o, t, a := StageOf(s, c).outcome, s.calls[c].pc.attempt, s.calls[c].account;
    To(s.(gate := s.gate.Publish(a, t, o), leaders := s.leaders - {a}), c, Finished(Some(t), Delivered(o)))
  }

  /** The next step of the leader of an attempt. */
  function LeadStep(s: State, c: nat, choice: Choice): State
    requires LeadsAt(s, c)
  {
    match StageOf(s, c)
    case ReReading => LeadRead(s, c, choice.fault)
    case ReRead(_) => LeadClock(s, c)
    case InnerBeginning => InnerBegin(s, c)
    case InnerJoined(_) => InnerAwait(s, c, choice.cancelled)
    case InnerWoken =>
      var o := if choice.fault.Some? then Failure(choice.fault.value) else FromStore(s, s.calls[c].account);
      Advance(s, c, Settling(o))
    case Flying(_) => Send(s, c, choice.fault)
    case Sent(_) => Receive(s, c, choice.reply)
    case Tokened(_, _) => Stamp(s, c)
    case Stamped(_, _) => Save(s, c, choice.fault)
    case Stored(_) => ReadBack(s, c, choice.fault)
    case Ending(_, _) => End(s, c)
    case Settling(_) => Settle(s, c, choice.fault)
    case Publishing(_) => Publish(s, c)
  }

  function LogoutReturn(s: State, c: nat, error: Option<Error>): State
    requires c in s.calls
  {
    To(s, c, LogoutDone(error, |s.log|))
  }

  /** With no session held, Logout returns and sends nothing. */
  function LogoutRead(s: State, c: nat, fault: Option<Error>): State
    requires c in s.calls
  {
    if fault.Some? || s.calls[c].account !in s.store then LogoutReturn(s, c, fault)
    else To(s, c, LogoutSent)
  }

  function LogoutReceive(s: State, c: nat, reply: Reply): State
    requires c in s.calls
  {
    var s' := Note(s, LogoutAnswered(c, s.calls[c].account, reply.Token?));
    if reply.Token? then To(s', c, LogoutClearing) else LogoutReturn(s', c, Some(reply.error))
  }

  function LogoutClear(s: State, c: nat, fault: Option<Error>): State
    requires c in s.calls
  {
    var a := s.calls[c].account;
    if fault.Some? then LogoutReturn(s, c, fault)
    else LogoutReturn(Note(s.(store := s.store - {a}), LoggedOut(a)), c, None)
  }

  /** The next step of a call; a call that has returned, or is still blocked, does nothing. */
  function CallStep(s: State, c: nat, choice: Choice): State
    requires c in s.calls
  {
    var Call(a, pc) := s.calls[c];
    match pc
    case Reading =>
      var fault := choice.fault;
      if fault.Some? then Note(To(s, c, Finished(None, Failure(fault.value))), CallerFault(c, a, fault.value))
      else Note(To(s, c, Read(Lookup(s.store, a))), CallerRead(c, a))
    case Read(held) =>
      Note(To(s, c, if Live(held, s.clock) then Finished(None, Success(held.value)) else AtGate),
           CallerChecked(c, a, s.clock))
    case AtGate => Enter(s, c)
    case Joined(_) => Await(s, c, choice.cancelled)
    case Lead(_, _, _) => LeadStep(s, c, choice)
    case LogoutReading => LogoutRead(s, c, choice.fault)
    case LogoutSent => LogoutReceive(s, c, choice.reply)
    case LogoutClearing => LogoutClear(s, c, choice.fault)
    case Finished(_, _) => s
    case GaveUp(_) => s
    case LogoutDone(_, _) => s
  }

  function Apply(s: State, act: Action): State {
    match act
    case Tick(seconds) => s.(clock := s.clock + seconds)
    case CallLogin(c, a, blank) =>
      if c in s.calls then s
      else if a == NO_ACCOUNT || blank then s.(calls := s.calls[c := Call(a, Finished(None, Failure(InvalidParam)))])
      else s.(calls := s.calls[c := Call(a, Reading)])
    case CallLogout(c, a) =>
      if c in s.calls then s
      else if a == NO_ACCOUNT then s.(calls := s.calls[c := Call(a, LogoutDone(Some(InvalidParam), |s.log|))])
      else s.(calls := s.calls[c := Call(a, LogoutReading)])
    case Step(c, choice) => if c in s.calls then CallStep(s, c, choice) else s
  }

  /** The state after a run. Every sequence of actions is a run, because an action that is not
      the next step of anything does nothing. */
  function After(s: State, acts: seq<Action>): State {
    if acts == [] then s else Apply(After(s, acts[..|acts| - 1]), acts[|acts| - 1])
  }
}
