/** The outer single-flight gate: at most one login attempt per account is pending, and
    every caller that arrives while it is pending joins it. `Gate` is the gate as a value;
    the class below is the mutable gate, proved against it. */
module LoginGate {
  import opened Auth

  /** One attempt: whose login it is, how many callers joined it, what it ended with, and how
      often its channel was closed. */
  datatype Attempt = Attempt(account: AccountId, waiting: nat, outcome: Outcome, closes: nat)

  /** Every attempt ever started, and the one pending for each account. */
  datatype Gate = Gate(pending: map<AccountId, nat>, attempts: seq<Attempt>) {

    /** An attempt's channel is open exactly while it is the one pending for its account, and
        closed once otherwise. */
    predicate Valid() {
      && (forall a :: a in pending ==> pending[a] < |attempts|)
      && (forall a :: a in pending ==> attempts[pending[a]].account == a && attempts[pending[a]].closes == 0)
      && (forall t :: 0 <= t < |attempts| ==> attempts[t].closes == if Running(t) then 0 else 1)
    }

    predicate Running(t: nat) {
      t < |attempts| && attempts[t].account in pending && pending[attempts[t].account] == t
    }

    predicate Leads(a: AccountId) {
      a !in pending
    }

    /** The attempt a caller of `begin` is handed. */
    function Handed(a: AccountId): nat {
      if a in pending then pending[a] else |attempts|
    }

    function Begin(a: AccountId): (g: Gate)
      ensures Valid() ==> g.Valid()
      ensures |g.attempts| >= |attempts|
      ensures forall t {:trigger g.attempts[t]} :: 0 <= t < |attempts| ==>
                g.attempts[t] == attempts[t].(waiting := g.attempts[t].waiting)
    {
      if a in pending then
        var t := pending[a];
        if t < |attempts| then
          this.(attempts := attempts[t := attempts[t].(waiting := attempts[t].waiting + 1)])
        else this
      else
        Gate(pending[a := |attempts|], attempts + [Attempt(a, 0, Success(NO_SESSION), 0)])
    }

    function Waiting(a: AccountId): nat
      requires Valid()
    {
      if a in pending then attempts[pending[a]].waiting else 0
    }

    function Publish(a: AccountId, t: nat, outcome: Outcome): Gate {
      Gate(pending - {a},
           if t < |attempts| then attempts[t := attempts[t].(outcome := outcome, closes := attempts[t].closes + 1)]
           else attempts)
    }
  }

  /** Publishing the pending attempt keeps the gate valid: its channel was still open, so
      the close happens once, and the account is free for a fresh attempt. */
  lemma PublishKeepsValid(g: Gate, a: AccountId, outcome: Outcome)
    requires g.Valid() && a in g.pending
    ensures g.Publish(a, g.pending[a], outcome).Valid()
    ensures g.Publish(a, g.pending[a], outcome).Leads(a)
    ensures g.Publish(a, g.pending[a], outcome).attempts[g.pending[a]].closes == 1
  {
  }

  /** The mutable gate. An attempt's handle is its position in `attempts`. */
  class LoginGate {
    var pending: map<AccountId, nat>
    var attempts: seq<Attempt>

    ghost function Value(): Gate
      reads this
    {
      Gate(pending, attempts)
    }

    constructor ()
      ensures Value() == Gate(map[], [])
    {
      pending, attempts := map[], [];
    }

    method Begin(a: AccountId) returns (t: nat, lead: bool)
      requires Value().Valid()
      modifies this
      ensures Value().Valid() && Value() == old(Value()).Begin(a)
      ensures lead == old(Value()).Leads(a) && t == old(Value()).Handed(a)
      ensures t < |attempts| && attempts[t].account == a && attempts[t].closes == 0
    {
      if a in pending {
        t, lead := pending[a], false;
        attempts := attempts[t := attempts[t].(waiting := attempts[t].waiting + 1)];
      } else {
        t, lead := |attempts|, true;
        attempts := attempts + [Attempt(a, 0, Success(NO_SESSION), 0)];
        pending := pending[a := t];
      }
    }

    method Waiting(a: AccountId) returns (n: nat)
      requires Value().Valid()
      ensures n == Value().Waiting(a)
    {
      if a in pending {
        n := attempts[pending[a]].waiting;
      } else {
        n := 0;
      }
    }

    /** The leader's obligation is that `t` is the attempt pending for `a`. */
    method Publish(a: AccountId, t: nat, outcome: Outcome)
      requires Value().Valid() && a in pending && pending[a] == t
      modifies this
      ensures Value().Valid() && Value() == old(Value()).Publish(a, t, outcome)
      ensures attempts[t].closes == 1
    {
      PublishKeepsValid(Value(), a, outcome);
      attempts := attempts[t := attempts[t].(outcome := outcome)];
      pending := pending - {a};
      attempts := attempts[t := attempts[t].(closes := attempts[t].closes + 1)];
    }
  }
}
