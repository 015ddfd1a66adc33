/** What the gate's count of waiting callers means over protocol runs. */
module LoginQueue {
  import opened Prelude
  import opened Auth
  import opened LoginProtocol
  import opened LoginShape
  import opened LoginSafety

  /** The calls now waiting for attempt `t`, and those that stopped waiting for it. */
  function Queued(s: State, t: nat): set<nat> {
    set c | c in s.calls && s.calls[c].pc == Joined(t)
  }

  function Left(s: State, t: nat): set<nat> {
    set c | c in s.calls && s.calls[c].pc == GaveUp(t)
  }

  predicate Came(pc: Pc, t: nat) {
    pc == Joined(t) || pc == GaveUp(t)
  }

  function Comers(s: State, t: nat): set<nat> {
    set c | c in s.calls && Came(s.calls[c].pc, t)
  }

  /** While attempt `t` is open it has counted everyone who joined it. */
  predicate Counted(s: State, t: nat) {
    t < |s.gate.attempts| && s.gate.attempts[t].closes == 0 ==> s.gate.attempts[t].waiting == |Comers(s, t)|
  }

  ghost predicate AllCounted(s: State) {
    forall t: nat {:trigger Counted(s, t)} :: Counted(s, t)
  }

  /** A step of `c` that neither joins nor forgets leaves everyone else where they were. */
  lemma SameComers(s: State, s': State, c: nat, t: nat)
    requires c in s.calls && c in s'.calls
    requires forall d :: d != c ==> Lookup(s'.calls, d) == Lookup(s.calls, d)
    requires Came(s'.calls[c].pc, t) <==> Came(s.calls[c].pc, t)
    ensures Comers(s', t) == Comers(s, t)
  {
    forall d: nat ensures d in Comers(s', t) <==> d in Comers(s, t) {
      assert d != c ==> Lookup(s'.calls, d) == Lookup(s.calls, d);
    }
  }

  lemma EnterCounts(s: State, c: nat)
    requires Shape(s) && AllCounted(s) && c in s.calls && s.calls[c].pc.AtGate?
    ensures AllCounted(Enter(s, c))
  {
    var s', a := Enter(s, c), s.calls[c].account;
    var h := s.gate.Handed(a);
    assert AccountOk(s, a);
    forall t: nat ensures Counted(s', t) {
      assert Counted(s, t);
      if s.gate.Leads(a) {
        SameComers(s, s', c, t);
        if t == h {
          forall d | d in s.calls ensures !Came(s.calls[d].pc, t) {
            assert CallOk(s, d);
          }
          assert Comers(s, t) == {};
        }
      } else if t == h {
        assert Comers(s', t) == Comers(s, t) + {c};
      } else {
        SameComers(s, s', c, t);
      }
    }
  }

  /** Every other step leaves the counts alone, and closes a channel or opens none. */
  ghost predicate KeepsQueue(s: State, c: nat, s': State)
    requires c in s.calls
  {
    && c in s'.calls && |s'.gate.attempts| == |s.gate.attempts|
    && (forall t :: 0 <= t < |s.gate.attempts| ==>
          s'.gate.attempts[t].waiting == s.gate.attempts[t].waiting
          && s.gate.attempts[t].closes <= s'.gate.attempts[t].closes)
    && (forall t {:trigger Came(s'.calls[c].pc, t)} ::
          0 <= t < |s.gate.attempts| && s.gate.attempts[t].closes == 0 ==>
          (Came(s'.calls[c].pc, t) <==> Came(s.calls[c].pc, t)))
  }

  lemma LeadStepKeepsQueue(s: State, c: nat, choice: Choice)
    requires Shape(s) && LeadsAt(s, c)
    ensures KeepsQueue(s, c, LeadStep(s, c, choice))
  {
    var st := StageOf(s, c);
    assert CallOk(s, c);
    if st.Publishing? || st.InnerBeginning? || st.Ending? {
    } else {
      if InFlight(st) {
        FlightStepMoves(s, c, choice);
      } else {
        QuietStepMoves(s, c, choice);
      }
      hide LeadStep;
    }
  }

  lemma FollowerStepKeepsQueue(s: State, c: nat, choice: Choice)
    requires c in s.calls && !LeadsAt(s, c) && !s.calls[c].pc.AtGate?
    ensures KeepsQueue(s, c, CallStep(s, c, choice))
  {
    hide Enter, LeadStep;
  }

  lemma CallStepCounts(s: State, c: nat, choice: Choice)
    requires Shape(s) && AllCounted(s) && c in s.calls
    ensures AllCounted(CallStep(s, c, choice))
  {
    if s.calls[c].pc.AtGate? {
      EnterCounts(s, c);
    } else {
      if LeadsAt(s, c) {
        LeadStepKeepsQueue(s, c, choice);
      } else {
        FollowerStepKeepsQueue(s, c, choice);
      }
      CallStepTouches(s, c, choice);
      var s' := CallStep(s, c, choice);
      hide CallStep, LeadStep, Shape;
      forall t: nat ensures Counted(s', t) {
        assert Counted(s, t);
        if t < |s.gate.attempts| && s.gate.attempts[t].closes == 0 {
          assert Came(s'.calls[c].pc, t) <==> Came(s.calls[c].pc, t);
          SameComers(s, s', c, t);
        }
      }
    }
  }

  lemma ApplyCounts(s: State, act: Action)
    requires Shape(s) && AllCounted(s)
    ensures AllCounted(Apply(s, act))
  {
    hide Shape, CallStep;
    if act.Step? {
      if act.c in s.calls {
        CallStepCounts(s, act.c, act.choice);
      }
    } else {
      var s' := Apply(s, act);
      forall t: nat ensures Counted(s', t) {
        assert Counted(s, t);
        assert Comers(s', t) == Comers(s, t);
      }
    }
  }

  lemma {:induction false} RunCounts(s: State, acts: seq<Action>)
    requires Initial(s)
    ensures AllCounted(After(s, acts))
  {
    if acts == [] {
      forall t: nat ensures Counted(s, t) {
      }
    } else {
      var init := acts[..|acts| - 1];
      RunCounts(s, init);
      RunIsSafe(s, init);
      ApplyCounts(After(s, init), acts[|acts| - 1]);
    }
  }

  /** In every run: what `waiting` reports for an account is the number of calls now queued on its
      pending attempt plus those that gave up on it, so it is the number queued if and only if
      none gave up; without a pending attempt it is 0 and nobody is blocked. */
  lemma WaitingCountsTheComers(s: State, acts: seq<Action>, a: AccountId)
    requires Initial(s)
    ensures var s' := After(s, acts);
            && s'.gate.Valid()
            && (a in s'.gate.pending ==>
                  var t := s'.gate.pending[a];
                  && s'.gate.Waiting(a) == |Queued(s', t)| + |Left(s', t)|
                  && (s'.gate.Waiting(a) == |Queued(s', t)| <==> Left(s', t) == {}))
            && (a !in s'.gate.pending ==>
                  && s'.gate.Waiting(a) == 0
                  && forall c :: c in s'.calls && s'.calls[c].account == a && s'.calls[c].pc.Joined? ==>
                       var t := s'.calls[c].pc.attempt;
                       t < |s'.gate.attempts| && s'.gate.attempts[t].closes == 1)
  {
    var s' := After(s, acts);
    RunIsSafe(s, acts);
    RunCounts(s, acts);
    if a in s'.gate.pending {
      var t := s'.gate.pending[a];
      assert Counted(s', t);
      assert Comers(s', t) == Queued(s', t) + Left(s', t);
      assert Queued(s', t) !! Left(s', t);
    } else {
      forall c | c in s'.calls && s'.calls[c].account == a && s'.calls[c].pc.Joined?
        ensures s'.calls[c].pc.attempt < |s'.gate.attempts| && s'.gate.attempts[s'.calls[c].pc.attempt].closes == 1
      {
        assert CallOk(s', c);
      }
    }
  }

  // ---- a run in which someone gives up ----

  const CALM := Choice(None, Token(""), false)
  const IMPATIENT := Choice(None, Token(""), true)

  lemma Extend(s0: State, acts: seq<Action>, s: State, act: Action) returns (acts': seq<Action>, s': State)
    requires After(s0, acts) == s
    ensures After(s0, acts') == s' == Apply(s, act)
  {
    acts', s' := acts + [act], Apply(s, act);
    assert acts'[..|acts|] == acts;
  }

  /** A Login that finds nothing in the store arrives at the gate. */
  lemma ReachesGate(s0: State, acts: seq<Action>, s: State, c: nat, a: AccountId)
    returns (acts': seq<Action>, s': State)
    requires After(s0, acts) == s && c !in s.calls && a != NO_ACCOUNT && a !in s.store
    ensures After(s0, acts') == s' == s.(calls := s.calls[c := Call(a, AtGate)], log := s'.log)
  {
    acts', s' := Extend(s0, acts, s, CallLogin(c, a, false));
    acts', s' := Extend(s0, acts', s', Step(c, CALM));
    assert s' == s.(calls := s.calls[c := Call(a, Read(None))], log := s'.log);
    acts', s' := Extend(s0, acts', s', Step(c, CALM));
  }

  lemma GivesUp(s0: State, acts: seq<Action>, s: State, c: nat) returns (acts': seq<Action>, s': State)
    requires After(s0, acts) == s && c in s.calls && s.calls[c].pc.Joined?
    ensures After(s0, acts') == s' == To(s, c, GaveUp(s.calls[c].pc.attempt))
  {
    acts', s' := Extend(s0, acts, s, Step(c, IMPATIENT));
  }

  lemma PassesGate(s0: State, acts: seq<Action>, s: State, c: nat) returns (acts': seq<Action>, s': State)
    requires After(s0, acts) == s && c in s.calls && s.calls[c].pc.AtGate?
    ensures After(s0, acts') == s' == Enter(s, c)
  {
    acts', s' := Extend(s0, acts, s, Step(c, CALM));
  }

  /** For any account nobody is logged in for: one call leads, a second joins and gives up, and one
      caller is reported as waiting although nobody is. */
  lemma WaitingMayOvercount(s0: State, a: AccountId) returns (acts: seq<Action>)
    requires Initial(s0) && a != NO_ACCOUNT && a !in s0.store
    ensures var s := After(s0, acts);
            && s.gate.Valid() && a in s.gate.pending && s.gate.Waiting(a) == 1
            && Queued(s, s.gate.pending[a]) == {}
  {
    hide After, Apply;
    var s := s0;
    acts := [];
    assert After(s0, []) == s0 by {
      EmptyRun(s0);
    }
    acts, s := ReachesGate(s0, acts, s, 0, a);
    acts, s := PassesGate(s0, acts, s, 0);
    acts, s := ReachesGate(s0, acts, s, 1, a);
    acts, s := PassesGate(s0, acts, s, 1);
    acts, s := GivesUp(s0, acts, s, 1);
  }

  lemma EmptyRun(s0: State)
    ensures After(s0, []) == s0
  {
  }
}
