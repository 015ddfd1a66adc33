/** What the log alone says about a login: what the store held at any point, and how far an
    attempt had come. Nothing here looks at a call or at a stage. */
module LoginStory {
  import opened Prelude
  import opened Auth
  import opened LoginProtocol

  /** What a store that first held `store` holds for `a` after `log`. */
  function HeldAfter(store: map<AccountId, Session>, log: seq<Event>, a: AccountId): Option<Session> {
    if log == [] then Lookup(store, a)
    else
      var held := HeldAfter(store, log[..|log| - 1], a);
      match log[|log| - 1]
      case Saved(_, b, x) => if b == a then Some(x) else held
      case Discarded(_, b, _, _) => if b == a then None else held
      case LoggedOut(b) => if b == a then None else held
      case _ => held
  }

  predicate Unusable(o: Outcome) {
    o.Failure? && SessionUnusable(o.error)
  }

  /** Whether the event is one of attempt `t`. */
  predicate OfAttempt(e: Event, t: nat) {
    && !e.CallerRead? && !e.CallerChecked? && !e.CallerFault? && !e.LogoutAnswered? && !e.LoggedOut?
    && e.attempt == t
  }

  /** The event at `k` gives attempt `t` of account `a` the outcome `o`:
      - the leader compared what its re-read had found with the clock, and it was live; or
      - the encryption, the Gateway, the save or the read-back failed with that very error; or
      - the read-back found the session the attempt itself had saved, which carries the token the
        Gateway gave it, unless a Logout had cleared the account in between. */
  ghost predicate Earns(store: map<AccountId, Session>, log: seq<Event>, t: nat, a: AccountId, k: nat, o: Outcome) {
    k < |log| &&
    match log[k]
    case LeaderChecked(u, b, now) =>
      u == t && b == a && exists r :: 0 <= r < k && FoundLive(store, log, t, a, r, now, o)
    case EncryptFailed(u, b, e) => u == t && b == a && o == Failure(e)
    case Refused(u, b, e) => u == t && b == a && o == Failure(e)
    case StoreFault(u, b, at, e) => u == t && b == a && at != AtReRead && o == Failure(e)
    case ReadAgain(u, b) =>
      u == t && b == a && exists i, j :: 0 <= i < j < k && SavedToken(log, t, a, i, j) && Kept(log, a, j, k, o)
    case _ => false
  }

  /** What reading back at `k` the session saved at `j` answers. */
  predicate Kept(log: seq<Event>, a: AccountId, j: nat, k: nat, o: Outcome)
    requires j < k < |log| && log[j].Saved?
  {
    o == if LoggedOut(a) in log[j..k] then Failure(SessionNotStored) else Success(log[j].session)
  }

  /** The re-read at `r` found a session that was live at `now`. */
  predicate FoundLive(
    store: map<AccountId, Session>, log: seq<Event>, t: nat, a: AccountId, r: nat, now: int, o: Outcome)
    requires r < |log|
  {
    var held := HeldAfter(store, log[..r], a);
    log[r] == LeaderRead(t, a) && Live(held, now) && o == Success(held.value)
  }

  /** The token accepted at `i` is that of the session saved at `j`. */
  predicate SavedToken(log: seq<Event>, t: nat, a: AccountId, i: nat, j: nat)
    requires i < j < |log|
  {
    && log[j].Saved? && log[j].attempt == t && log[j].account == a && log[j].session.accountId == a
    && log[i] == Accepted(t, a, log[j].session.token)
  }

  // ---- the same, event by event ----

  /** How far the attempt has come. */
  datatype Story =
    | Unread
    | Saw(held: Option<Session>)
    | Due
    | Asked
    | Acked(token: string)
    | Filed(session: Session, gone: bool)
    | Decided(outcome: Outcome)
    | Closed(outcome: Outcome)
    | Broken

  /** What the attempt's own event `e` makes of its story, with `held` in the store before it. */
  function Own(st: Story, held: Option<Session>, e: Event, a: AccountId): Story {
    if e.account != a then Broken
    else match st
         case Unread =>
           if e.LeaderRead? then Saw(held)
           else if e.StoreFault? && e.at == AtReRead then Due
           else Broken
         case Saw(seen) =>
           if !e.LeaderChecked? then Broken
           else if Live(seen, e.now) then Decided(Success(seen.value))
           else Due
         case Due =>
           if e.Requested? then Asked else if e.EncryptFailed? then Decided(Failure(e.error)) else Broken
         case Asked =>
           if e.Accepted? then Acked(e.token) else if e.Refused? then Decided(Failure(e.error)) else Broken
         case Acked(token) =>
           if e.Saved? && e.session.token == token && e.session.accountId == a then Filed(e.session, false)
           else if e.StoreFault? && e.at == AtSave then Decided(Failure(e.error))
           else Broken
         case Filed(x, gone) =>
           if e.ReadAgain? then Decided(if gone then Failure(SessionNotStored) else Success(x))
           else if e.StoreFault? && e.at == AtReadBack then Decided(Failure(e.error))
           else Broken
         case Decided(o) => if Unusable(o) && (e.Discarded? || e.DiscardFailed?) then Closed(o) else Broken
         case _ => Broken
  }

  function Next(st: Story, held: Option<Session>, e: Event, t: nat, a: AccountId): Story {
    if OfAttempt(e, t) then Own(st, held, e, a)
    else if e == LoggedOut(a) && st.Filed? then st.(gone := true)
    else st
  }

  function Told(store: map<AccountId, Session>, log: seq<Event>, t: nat, a: AccountId): Story {
    if log == [] then Unread
    else
      var init := log[..|log| - 1];
      Next(Told(store, init, t, a), HeldAfter(store, init, a), log[|log| - 1], t, a)
  }

  /** The story of an attempt that has published `o`: an unusable session has been dealt with. */
  predicate Final(st: Story, o: Outcome) {
    st == if Unusable(o) then Closed(o) else Decided(o)
  }

  // ---- what a story has behind it ----

  /** The events that brought the story to where it is. */
  ghost predicate Backed(store: map<AccountId, Session>, log: seq<Event>, t: nat, a: AccountId, st: Story) {
    match st
    case Saw(held) => exists r :: 0 <= r < |log| && log[r] == LeaderRead(t, a) && HeldAfter(store, log[..r], a) == held
    case Acked(token) => exists i :: 0 <= i < |log| && log[i] == Accepted(t, a, token)
    case Filed(x, gone) =>
      exists i, j :: 0 <= i < j < |log| && SavedToken(log, t, a, i, j) && log[j].session == x &&
        (gone <==> LoggedOut(a) in log[j..])
    case Decided(o) => exists k: nat :: Earns(store, log, t, a, k, o)
    case Closed(o) => Unusable(o) && (exists k: nat :: Earns(store, log, t, a, k, o)) && Dealt(log, t, a)
    case _ => true
  }

  /** The attempt discarded what the store held, or tried to. */
  ghost predicate Dealt(log: seq<Event>, t: nat, a: AccountId) {
    exists m :: 0 <= m < |log| && DealtAt(log[m], t, a)
  }

  predicate DealtAt(e: Event, t: nat, a: AccountId) {
    (e.Discarded? || e.DiscardFailed?) && e.attempt == t && e.account == a
  }

  lemma EarnsLater(
    store: map<AccountId, Session>, log: seq<Event>, log': seq<Event>, t: nat, a: AccountId, k: nat, o: Outcome)
    requires log <= log' && Earns(store, log, t, a, k, o)
    ensures Earns(store, log', t, a, k, o)
  {
    if log[k].LeaderChecked? {
      var r :| 0 <= r < k && FoundLive(store, log, t, a, r, log[k].now, o);
      assert log'[..r] == log[..r];
      assert FoundLive(store, log', t, a, r, log[k].now, o);
    } else if log[k].ReadAgain? {
      var i, j :| 0 <= i < j < k && SavedToken(log, t, a, i, j) && Kept(log, a, j, k, o);
      assert log'[j..k] == log[j..k];
      assert SavedToken(log', t, a, i, j) && Kept(log', a, j, k, o);
    }
  }

  lemma AfterLast<T>(log: seq<T>, j: nat, e: T)
    requires j < |log|
    ensures (log + [e])[j..] == log[j..] + [e]
  {
  }

  /** An event that is not the attempt's own. */
  lemma OtherBacked(store: map<AccountId, Session>, log: seq<Event>, e: Event, t: nat, a: AccountId, st: Story)
    requires Backed(store, log, t, a, st) && !OfAttempt(e, t)
    ensures Backed(store, log + [e], t, a, Next(st, HeldAfter(store, log, a), e, t, a))
  {
    var log' := log + [e];
    match st
    case Saw(held) =>
      var r :| 0 <= r < |log| && log[r] == LeaderRead(t, a) && HeldAfter(store, log[..r], a) == held;
      assert log'[r] == log[r] && log'[..r] == log[..r];
    case Acked(token) =>
      var i :| 0 <= i < |log| && log[i] == Accepted(t, a, token);
      assert log'[i] == log[i];
    case Filed(x, gone) =>
      var i, j :| 0 <= i < j < |log| && SavedToken(log, t, a, i, j) && log[j].session == x &&
        (gone <==> LoggedOut(a) in log[j..]);
      AfterLast(log, j, e);
      assert SavedToken(log', t, a, i, j);
    case Decided(o) =>
      var k: nat :| Earns(store, log, t, a, k, o);
      EarnsLater(store, log, log', t, a, k, o);
    case Closed(o) =>
      var k: nat :| Earns(store, log, t, a, k, o);
      EarnsLater(store, log, log', t, a, k, o);
      var m :| 0 <= m < |log| && DealtAt(log[m], t, a);
      assert DealtAt(log'[m], t, a);
    case _ =>
  }

  lemma OwnBacked(store: map<AccountId, Session>, log: seq<Event>, e: Event, t: nat, a: AccountId, st: Story)
    requires Backed(store, log, t, a, st) && OfAttempt(e, t)
    ensures Backed(store, log + [e], t, a, Own(st, HeldAfter(store, log, a), e, a))
  {
    var log', n, st' := log + [e], |log|, Own(st, HeldAfter(store, log, a), e, a);
    assert log'[n] == e && log'[..n] == log;
    if st'.Broken? {
      return;
    }
    match st
    case Saw(held) =>
      var r :| 0 <= r < |log| && log[r] == LeaderRead(t, a) && HeldAfter(store, log[..r], a) == held;
      assert log'[r] == log[r] && log'[..r] == log[..r];
      assert st'.Decided? ==> FoundLive(store, log', t, a, r, e.now, st'.outcome);
      assert st'.Decided? ==> Earns(store, log', t, a, n, st'.outcome);
    case Acked(token) =>
      var i :| 0 <= i < |log| && log[i] == Accepted(t, a, token);
      assert log'[i] == log[i];
      assert log'[n..] == [e];
      assert st'.Filed? ==> SavedToken(log', t, a, i, n);
      assert st'.Decided? ==> Earns(store, log', t, a, n, st'.outcome);
    case Filed(x, gone) =>
      var i, j :| 0 <= i < j < |log| && SavedToken(log, t, a, i, j) && log[j].session == x &&
        (gone <==> LoggedOut(a) in log[j..]);
      assert log'[j..n] == log[j..];
      assert SavedToken(log', t, a, i, j);
      assert e.ReadAgain? ==> Kept(log', a, j, n, st'.outcome);
      assert Earns(store, log', t, a, n, st'.outcome);
    case Decided(o) =>
      var k: nat :| Earns(store, log, t, a, k, o);
      EarnsLater(store, log, log', t, a, k, o);
      assert DealtAt(log'[n], t, a);
    case Due => assert st'.Decided? ==> Earns(store, log', t, a, n, st'.outcome);
    case Asked => assert st'.Decided? ==> Earns(store, log', t, a, n, st'.outcome);
    case _ =>
  }

  lemma {:induction false} ToldBacked(store: map<AccountId, Session>, log: seq<Event>, t: nat, a: AccountId)
    ensures Backed(store, log, t, a, Told(store, log, t, a))
  {
    if log != [] {
      var init, e := log[..|log| - 1], log[|log| - 1];
      assert log == init + [e];
      ToldBacked(store, init, t, a);
      if OfAttempt(e, t) {
        OwnBacked(store, init, e, t, a, Told(store, init, t, a));
      } else {
        OtherBacked(store, init, e, t, a, Told(store, init, t, a));
      }
      hide Backed;
    }
  }

  // ---- a story goes one way ----

  function Rank(st: Story): nat {
    match st
    case Unread => 0
    case Saw(_) => 1
    case Due => 2
    case Asked => 3
    case Acked(_) => 4
    case Filed(_, _) => 5
    case Decided(_) => 6
    case Closed(_) => 7
    case Broken => 8
  }

  /** From `st` the story may come to `st'`, with a Logout of the account in between iff `out`. */
  predicate Leads(st: Story, st': Story, out: bool) {
    && Rank(st) <= Rank(st')
    && (Rank(st) == Rank(st') ==> st' == if st.Filed? then Filed(st.session, st.gone || out) else st)
    && (st.Decided? ==> st' == st || st' == Closed(st.outcome) || st'.Broken?)
  }

  lemma NextLeads(
    from: Story, st: Story, out: bool, held: Option<Session>, e: Event, t: nat, a: AccountId)
    requires Leads(from, st, out)
    ensures Leads(from, Next(st, held, e, t, a), out || e == LoggedOut(a))
  {
    if OfAttempt(e, t) {
      OwnLeads(st, held, e, a);
      hide Own;
    }
  }

  lemma OwnLeads(st: Story, held: Option<Session>, e: Event, a: AccountId)
    ensures var st' := Own(st, held, e, a);
            && (Rank(st) < Rank(st') || (st.Broken? && st'.Broken?))
            && (st.Decided? ==> st' == Closed(st.outcome) || st'.Broken?)
  {
  }

  lemma {:induction false} Onward(
    store: map<AccountId, Session>, log: seq<Event>, i: nat, j: nat, t: nat, a: AccountId)
    requires i <= j <= |log|
    ensures Leads(Told(store, log[..i], t, a), Told(store, log[..j], t, a), LoggedOut(a) in log[i..j])
    decreases j
  {
    hide Told, HeldAfter, Next;
    if i < j {
      Onward(store, log, i, j - 1, t, a);
      ToldNext(store, log, j - 1, t, a);
      assert log[i..j] == log[i..j - 1] + [log[j - 1]];
      var from, mid := Told(store, log[..i], t, a), Told(store, log[..j - 1], t, a);
      hide Leads;
      NextLeads(from, mid, LoggedOut(a) in log[i..j - 1], HeldAfter(store, log[..j - 1], a), log[j - 1], t, a);
    }
  }

  /** The same up to the end of the log. */
  lemma OnwardToEnd(store: map<AccountId, Session>, log: seq<Event>, i: nat, t: nat, a: AccountId)
    requires i <= |log|
    ensures Leads(Told(store, log[..i], t, a), Told(store, log, t, a), LoggedOut(a) in log[i..])
  {
    assert log[..|log|] == log && log[i..|log|] == log[i..];
    Onward(store, log, i, |log|, t, a);
    hide Told, Leads;
  }

  lemma ToldNext(store: map<AccountId, Session>, log: seq<Event>, k: nat, t: nat, a: AccountId)
    requires k < |log|
    ensures Told(store, log[..k + 1], t, a) ==
            Next(Told(store, log[..k], t, a), HeldAfter(store, log[..k], a), log[k], t, a)
  {
    assert log[..k + 1][..k] == log[..k];
  }

  /** The attempt's own event takes its story on, if it has not broken by the end. */
  lemma OwnMoves(store: map<AccountId, Session>, log: seq<Event>, k: nat, t: nat, a: AccountId)
    requires k < |log| && OfAttempt(log[k], t) && !Told(store, log, t, a).Broken?
    ensures var st := Own(Told(store, log[..k], t, a), HeldAfter(store, log[..k], a), log[k], a);
            !st.Broken? && st == Told(store, log[..k + 1], t, a)
  {
    ToldNext(store, log, k, t, a);
    OnwardToEnd(store, log, k + 1, t, a);
    hide Told, HeldAfter, Own;
  }

  lemma FoundDecides(
    store: map<AccountId, Session>, log: seq<Event>, t: nat, a: AccountId, r: nat, k: nat, o: Outcome)
    requires r < k < |log| && !Told(store, log, t, a).Broken?
    requires OfAttempt(log[k], t) && log[k].LeaderChecked? && FoundLive(store, log, t, a, r, log[k].now, o)
    ensures Told(store, log[..k + 1], t, a) == Decided(o)
  {
    OwnMoves(store, log, r, t, a);
    Onward(store, log, r + 1, k, t, a);
    OwnMoves(store, log, k, t, a);
    hide Told, HeldAfter;
  }

  lemma OwnSaved(st: Story, held: Option<Session>, e: Event, a: AccountId)
    requires !Own(st, held, e, a).Broken?
    ensures e.Saved? ==> Own(st, held, e, a) == Filed(e.session, false)
    ensures e.ReadAgain? ==>
              && st.Filed?
              && Own(st, held, e, a) == Decided(if st.gone then Failure(SessionNotStored) else Success(st.session))
  {
  }

  lemma KeptDecides(
    store: map<AccountId, Session>, log: seq<Event>, t: nat, a: AccountId, i: nat, j: nat, k: nat, o: Outcome)
    requires i < j < k < |log| && !Told(store, log, t, a).Broken?
    requires OfAttempt(log[k], t) && log[k].ReadAgain? && SavedToken(log, t, a, i, j) && Kept(log, a, j, k, o)
    ensures Told(store, log[..k + 1], t, a) == Decided(o)
  {
    hide Told, HeldAfter, Own;
    OwnMoves(store, log, j, t, a);
    OwnSaved(Told(store, log[..j], t, a), HeldAfter(store, log[..j], a), log[j], a);
    Onward(store, log, j + 1, k, t, a);
    OwnMoves(store, log, k, t, a);
    OwnSaved(Told(store, log[..k], t, a), HeldAfter(store, log[..k], a), log[k], a);
    assert log[j..k] == [log[j]] + log[j + 1..k];
  }

  /** Whatever earned an outcome decided the attempt. */
  lemma EarnsDecides(store: map<AccountId, Session>, log: seq<Event>, t: nat, a: AccountId, k: nat, o: Outcome)
    requires Earns(store, log, t, a, k, o) && !Told(store, log, t, a).Broken?
    ensures Told(store, log[..k + 1], t, a) == Decided(o)
  {
    hide Told, HeldAfter, FoundLive, Kept;
    if log[k].LeaderChecked? {
      var r :| 0 <= r < k && FoundLive(store, log, t, a, r, log[k].now, o);
      FoundDecides(store, log, t, a, r, k, o);
    } else if log[k].ReadAgain? {
      var i, j :| 0 <= i < j < k && SavedToken(log, t, a, i, j) && Kept(log, a, j, k, o);
      KeptDecides(store, log, t, a, i, j, k, o);
    } else {
      OwnMoves(store, log, k, t, a);
    }
  }

  /** So a story that ended in `o` was earned by events for `o` and for nothing else. */
  lemma FinalIff(store: map<AccountId, Session>, log: seq<Event>, t: nat, a: AccountId, o: Outcome, p: Outcome)
    requires Final(Told(store, log, t, a), o)
    ensures (exists k: nat :: Earns(store, log, t, a, k, p)) <==> p == o
    ensures Unusable(o) <==> Dealt(log, t, a)
  {
    hide Told, HeldAfter, Earns, Own;
    ToldBacked(store, log, t, a);
    forall k: nat | Earns(store, log, t, a, k, p) ensures p == o {
      EarnsDecides(store, log, t, a, k, p);
      assert k < |log| by { EarnsWithin(store, log, t, a, k, p); }
      OnwardToEnd(store, log, k + 1, t, a);
    }
    if Dealt(log, t, a) {
      var m :| 0 <= m < |log| && DealtAt(log[m], t, a);
      DealtCloses(store, log, m, t, a);
    }
  }

  lemma EarnsWithin(store: map<AccountId, Session>, log: seq<Event>, t: nat, a: AccountId, k: nat, o: Outcome)
    requires Earns(store, log, t, a, k, o)
    ensures k < |log|
  {
  }

  lemma DealtCloses(store: map<AccountId, Session>, log: seq<Event>, m: nat, t: nat, a: AccountId)
    requires m < |log| && DealtAt(log[m], t, a) && !Told(store, log, t, a).Broken?
    ensures Told(store, log, t, a).Closed?
  {
    OwnMoves(store, log, m, t, a);
    OnwardToEnd(store, log, m + 1, t, a);
    hide Told, HeldAfter;
  }
}
