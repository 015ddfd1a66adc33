/** A leader finishes on its own steps, whatever the environment does. */
module LoginProgress {
  import opened Prelude
  import opened Auth
  import opened LoginProtocol
  import opened LoginShape
  import opened LoginSafety

  /** How many steps a leader has left at most, the one that publishes included. The two stages of
      an inner joiner are never reached. */
  function Rank(st: Stage): nat {
    match st
    case ReReading => 11
    case ReRead(_) => 10
    case InnerBeginning => 9
    case Flying(_) => 8
    case Sent(_) => 7
    case Tokened(_, _) => 6
    case Stamped(_, _) => 5
    case Stored(_) => 4
    case Ending(_, _) => 3
    case Settling(_) => 2
    case Publishing(_) => 1
    case InnerJoined(_) => 0
    case InnerWoken => 0
  }

  /** Call `c`, which led attempt `t`, leads it still with at most `left` steps to go, or has
      published it and returned. */
  predicate Onward(s: State, c: nat, t: nat, left: int) {
    c in s.calls &&
    match s.calls[c].pc
    case Lead(attempt, _, stage) => attempt == t && Rank(stage) <= left
    case Finished(via, _) => via == Some(t)
    case _ => false
  }

  lemma FlightStepOnward(s: State, c: nat, choice: Choice)
    requires LeadsAt(s, c) && InFlight(StageOf(s, c))
    ensures Onward(LeadStep(s, c, choice), c, s.calls[c].pc.attempt, Rank(StageOf(s, c)) - 1)
  {
  }

  lemma QuietStepOnward(s: State, c: nat, choice: Choice)
    requires LeadsAt(s, c) && !InFlight(StageOf(s, c)) && !StageOf(s, c).InnerJoined? && !StageOf(s, c).InnerWoken?
    requires StageOf(s, c).InnerBeginning? ==> !s.tm.InProgress(s.calls[c].account)
    ensures Onward(LeadStep(s, c, choice), c, s.calls[c].pc.attempt, Rank(StageOf(s, c)) - 1)
  {
  }

  lemma LeadStepOnward(s: State, c: nat, choice: Choice)
    requires Shape(s) && LeadsAt(s, c)
    ensures Onward(LeadStep(s, c, choice), c, s.calls[c].pc.attempt, Rank(StageOf(s, c)) - 1)
  {
    assert CallOk(s, c);
    hide LeadStep, Onward, Shape;
    if InFlight(StageOf(s, c)) {
      FlightStepOnward(s, c, choice);
    } else {
      if StageOf(s, c).InnerBeginning? {
        InnerBeginKeepsShape(s, c);
      }
      QuietStepOnward(s, c, choice);
    }
  }

  /** How often call `c` gets a turn. */
  function Turns(acts: seq<Action>, c: nat): nat {
    if acts == [] then 0
    else
      var act := acts[|acts| - 1];
      Turns(acts[..|acts| - 1], c) + if act.Step? && act.c == c then 1 else 0
  }

  lemma OthersLeaveItAlone(s: State, act: Action, c: nat)
    requires c in s.calls && !(act.Step? && act.c == c)
    ensures c in Apply(s, act).calls && Apply(s, act).calls[c] == s.calls[c]
  {
    if act.Step? && act.c in s.calls {
      CallStepTouches(s, act.c, act.choice);
      assert Lookup(Apply(s, act).calls, c) == Lookup(s.calls, c);
      hide CallStep;
    }
  }

  lemma ApplyOnward(s: State, act: Action, c: nat, t: nat, left: int)
    requires Shape(s) && Onward(s, c, t, left)
    ensures Onward(Apply(s, act), c, t, if act.Step? && act.c == c then left - 1 else left)
  {
    if !(act.Step? && act.c == c) {
      OthersLeaveItAlone(s, act, c);
      hide Apply;
    } else if LeadsAt(s, c) {
      LeadStepOnward(s, c, act.choice);
      hide LeadStep;
    }
  }

  lemma {:induction false} StaysSafe(s: State, more: seq<Action>)
    requires Safe(s)
    ensures Safe(After(s, more))
  {
    hide Safe, Apply;
    if more != [] {
      StaysSafe(s, more[..|more| - 1]);
      ApplyKeepsSafe(After(s, more[..|more| - 1]), more[|more| - 1]);
    }
  }

  lemma {:induction false} LeaderMovesOn(s: State, more: seq<Action>, c: nat, t: nat, left: nat)
    requires Safe(s) && Onward(s, c, t, left)
    ensures Onward(After(s, more), c, t, left - Turns(more, c))
  {
    hide Apply, Onward, Safe;
    if more != [] {
      var init := more[..|more| - 1];
      LeaderMovesOn(s, init, c, t, left);
      StaysSafe(s, init);
      SafeHasShape(After(s, init));
      ApplyOnward(After(s, init), more[|more| - 1], c, t, left - Turns(init, c));
    }
  }

  lemma SafeHasShape(s: State)
    requires Safe(s)
    ensures Shape(s)
  {
  }

  /** From every reachable state: once the leader of an attempt has had eleven more turns, however
      the other calls run in between and whatever the store, the Gateway and the clock do, it has
      published the attempt and returned its outcome. */
  lemma LeadersFinish(s: State, acts: seq<Action>, more: seq<Action>, c: nat)
    requires Initial(s) && LeadsAt(After(s, acts), c) && Turns(more, c) >= 11
    ensures var s', t := After(After(s, acts), more), After(s, acts).calls[c].pc.attempt;
            && c in s'.calls && s'.calls[c].pc.Finished? && s'.calls[c].pc.via == Some(t)
            && t < |s'.gate.attempts| && s'.gate.attempts[t].closes == 1
            && s'.calls[c].pc.result == Delivered(s'.gate.attempts[t].outcome)
  {
    var s1 := After(s, acts);
    var s2 := After(s1, more);
    RunIsSafe(s, acts);
    LeaderMovesOn(s1, more, c, s1.calls[c].pc.attempt, 11);
    StaysSafe(s1, more);
    assert CallOk(s2, c);
    hide After, Turns;
  }
}
