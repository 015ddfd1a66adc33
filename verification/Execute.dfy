/** One guarded call of the client: circuit breaker, then retries, each attempt behind the rate
    limiter; and any number of such calls sharing the breakers. */
module Execute {
  import opened Prelude
  import opened Routes
  import Retry
  import B = Breaker

  // ---- one call, start to finish ----

  datatype Answer = Circuit | Answer(err: Option<Retry.Error>)

  /** Attempts among the first n that got past the limiter and reached the transport. */
  function Sends(limiter: nat -> Option<Retry.Error>, n: nat): (r: nat)
    ensures r <= n
  {
    if n == 0 then 0 else Sends(limiter, n - 1) + if limiter(n - 1).None? then 1 else 0
  }

  class Client {
    const queryBreaker: B.Breaker?
    const mutationBreaker: B.Breaker?
    const circuitBreaker: B.Breaker?
    const policy: Option<Retry.Policy>

    constructor (q: B.Breaker?, m: B.Breaker?, c: B.Breaker?, p: Option<Retry.Policy>)
      ensures queryBreaker == q && mutationBreaker == m && circuitBreaker == c && policy == p
    {
      queryBreaker, mutationBreaker, circuitBreaker, policy := q, m, c, p;
    }

    /** The breaker of the operation's own kind if there is one, otherwise the combined one. */
    function Chosen(path: string): B.Breaker? {
      if IsMutation(path) then
        if mutationBreaker != null then mutationBreaker else circuitBreaker
      else
        if queryBreaker != null then queryBreaker else circuitBreaker
    }

    /** Nothing is attempted while the breaker refuses; otherwise the breaker hears exactly one
        outcome, that of the whole call however many attempts it took; and any spelling of a
        mutation's path reaches the transport at most once. `limiter` is what waiting for the rate
        limiter before attempt k returns and `w.attempt` what the transport returns; the breaker's
        clock reads `asked`, then `finished`. */
    method Execute(path: string, w: Retry.World, limiter: nat -> Option<Retry.Error>, asked: int, finished: int)
      returns (answer: Answer, attempts: nat)
      requires policy.Some? ==> policy.value.Valid()
      requires Chosen(path) != null ==> Chosen(path).Contents().Valid()
      modifies Chosen(path)
      ensures answer.Circuit? <==> Chosen(path) != null && !old(Chosen(path).Contents()).Admits(asked)
      ensures answer.Circuit? ==> attempts == 0 && Chosen(path).Contents() == old(Chosen(path).Contents())
      ensures NormalizePath(path) in MUTATIONS ==> Sends(limiter, attempts) <= 1
      ensures policy.None? && answer.Answer? ==> attempts == 1
      ensures policy.Some? ==> attempts <= policy.value.Budget(Retry.ClassForPath(path))
      ensures answer == Answer(None) <==>
                attempts > 0 && limiter(attempts - 1).None? && w.attempt(attempts - 1).None?
      ensures answer.Answer? && Chosen(path) != null ==>
                Chosen(path).Contents() ==
                  var b := old(Chosen(path).Contents()).Allowed(asked);
                  if answer.err.None? then b.Succeeded() else b.Failed(finished)
    {
      hide IsMutation, NormalizePath, Sends;
      var cb := Chosen(path);
      if cb != null {
        var ok := cb.Allow(asked);
        if !ok {
          return Circuit, 0;
        }
      }
      var attempt := (k: nat) => if limiter(k).Some? then limiter(k) else w.attempt(k);
      var err;
      if policy.Some? {
        attempts, err := Retry.DoRoute(policy.value, path, w.(attempt := attempt));
      } else {
        attempts, err := 1, attempt(0);
      }
      if cb != null {
        if err.Some? {
          cb.OnFailure(finished);
        } else {
          cb.OnSuccess();
        }
      }
      answer := Answer(err);
    }
  }

  // ---- which breaker guards a call ----

  /** A call of a mutation, by any spelling of its path, is guarded by the mutation breaker, and any
      other by the query breaker; the combined one stands in for either when it is missing. */
  lemma ChosenIs(c: Client, path: string)
    ensures NormalizePath(path) in MUTATIONS && c.mutationBreaker != null ==> c.Chosen(path) == c.mutationBreaker
    ensures NormalizePath(path) !in MUTATIONS && c.queryBreaker != null ==> c.Chosen(path) == c.queryBreaker
    ensures NormalizePath(path) in MUTATIONS && c.mutationBreaker == null ==> c.Chosen(path) == c.circuitBreaker
    ensures NormalizePath(path) !in MUTATIONS && c.queryBreaker == null ==> c.Chosen(path) == c.circuitBreaker
  {
    hide NormalizePath, IsMutation;
    MutationIffNormalFormIs(path);
  }

  // ---- many calls at once ----

  datatype Slot = QuerySlot | MutationSlot | CombinedSlot | NoSlot

  datatype Call = Call(path: string, inFlight: bool)

  datatype State = State(
    query: Option<B.Value>, mutation: Option<B.Value>, combined: Option<B.Value>, calls: seq<Call>)
  {
    function SlotFor(path: string): Slot {
      if IsMutation(path) && mutation.Some? then MutationSlot
      else if !IsMutation(path) && query.Some? then QuerySlot
      else if combined.Some? then CombinedSlot
      else NoSlot
    }

    function In(slot: Slot): Option<B.Value> {
      match slot
      case QuerySlot => query
      case MutationSlot => mutation
      case CombinedSlot => combined
      case NoSlot => None
    }

    function Tell(slot: Slot, e: B.Event): State {
      match In(slot)
      case None => this
      case Some(b) =>
        match slot
        case QuerySlot => this.(query := Some(B.Apply(b, e)))
        case MutationSlot => this.(mutation := Some(B.Apply(b, e)))
        case CombinedSlot => this.(combined := Some(B.Apply(b, e)))
        case NoSlot => this
    }

    /** Calls the breaker in `slot` let through that have not reported yet. */
    function InFlight(slot: Slot): set<nat> {
      set c | 0 <= c < |calls| && calls[c].inFlight && SlotFor(calls[c].path) == slot
    }
  }

  datatype Action = Begin(path: string, now: int) | End(c: nat, ok: bool, now: int)

  function Apply(s: State, a: Action): State {
    match a
    case Begin(path, now) =>
      var slot := s.SlotFor(path);
      var admitted := s.In(slot).None? || s.In(slot).value.Admits(now);
      s.Tell(slot, B.Ask(now)).(calls := s.calls + [Call(path, admitted)])
    case End(c, ok, now) =>
      if c < |s.calls| && s.calls[c].inFlight then
        s.Tell(s.SlotFor(s.calls[c].path), if ok then B.Good(now) else B.Bad(now))
         .(calls := s.calls[c := s.calls[c].(inFlight := false)])
      else s
  }

  function After(s: State, acts: seq<Action>): State {
    if acts == [] then s else Apply(After(s, acts[..|acts| - 1]), acts[|acts| - 1])
  }

  /** What the action means to the breaker in `slot`, if anything: only calls of its own kind, or
      of a kind without a breaker of its own, reach it. */
  function Heard(s: State, a: Action, slot: Slot): seq<B.Event> {
    match a
    case Begin(path, now) => if s.SlotFor(path) == slot then [B.Ask(now)] else []
    case End(c, ok, now) =>
      if c < |s.calls| && s.calls[c].inFlight && s.SlotFor(s.calls[c].path) == slot then
        [if ok then B.Good(now) else B.Bad(now)]
      else []
  }

  function Trace(s: State, acts: seq<Action>, slot: Slot): seq<B.Event> {
    if acts == [] then []
    else Trace(s, acts[..|acts| - 1], slot) + Heard(After(s, acts[..|acts| - 1]), acts[|acts| - 1], slot)
  }

  function Outcomes(es: seq<B.Event>): nat {
    if es == [] then 0 else Outcomes(es[..|es| - 1]) + if es[|es| - 1].Ask? then 0 else 1
  }

  /** The same choice, for calls that share the breakers. */
  lemma SlotIs(s: State, path: string)
    ensures NormalizePath(path) in MUTATIONS && s.mutation.Some? ==> s.SlotFor(path) == MutationSlot
    ensures NormalizePath(path) !in MUTATIONS && s.query.Some? ==> s.SlotFor(path) == QuerySlot
    ensures (if NormalizePath(path) in MUTATIONS then s.mutation.None? else s.query.None?) ==>
              s.SlotFor(path) == if s.combined.Some? then CombinedSlot else NoSlot
  {
    hide NormalizePath, IsMutation;
    MutationIffNormalFormIs(path);
  }

  lemma SlotsAreFixed(s: State, a: Action, path: string)
    ensures Apply(s, a).SlotFor(path) == s.SlotFor(path)
  {
    hide IsMutation, B.Apply, B.Value.Admits;
  }

  lemma ApplyTells(s: State, a: Action, slot: Slot)
    requires s.In(slot).Some?
    ensures Apply(s, a).In(slot) == Some(B.After(s.In(slot).value, Heard(s, a, slot)))
    ensures |Heard(s, a, slot)| <= 1
  {
    hide IsMutation, B.Apply, B.Value.Admits;
    var es := Heard(s, a, slot);
    if es != [] {
      assert es[..0] == [];
      assert B.After(s.In(slot).value, es[..0]) == s.In(slot).value;
    }
  }

  lemma AppendEvent(b: B.Value, es: seq<B.Event>, more: seq<B.Event>)
    requires |more| <= 1
    ensures B.After(b, es + more) == B.After(B.After(b, es), more)
    ensures B.Admissions(b, es + more) ==
            B.Admissions(b, es) + if more != [] && more[0].Ask? && B.After(b, es).Admits(more[0].now) then 1 else 0
    ensures Outcomes(es + more) == Outcomes(es) + if more != [] && !more[0].Ask? then 1 else 0
  {
    hide B.Apply, B.Value.Admits;
    if more == [] {
      assert es + more == es;
    } else {
      assert (es + more)[..|es|] == es;
      assert more[..0] == [] && B.After(B.After(b, es), more[..0]) == B.After(b, es);
    }
  }

  /** How the breaker's traffic in flight changes: up by an admission, down by an outcome. */
  function Change(b: B.Value, heard: seq<B.Event>): int {
    if heard == [] then 0 else if !heard[0].Ask? then -1 else if b.Admits(heard[0].now) then 1 else 0
  }

  lemma BeginChanges(s: State, path: string, now: int, slot: Slot)
    requires s.In(slot).Some?
    ensures var a := Begin(path, now);
            |Apply(s, a).InFlight(slot)| == |s.InFlight(slot)| + Change(s.In(slot).value, Heard(s, a, slot))
  {
    var c, s' := |s.calls|, Apply(s, Begin(path, now));
    forall p ensures s'.SlotFor(p) == s.SlotFor(p) {
      SlotsAreFixed(s, Begin(path, now), p);
    }
    hide IsMutation, B.Apply, B.Value.Admits, State.SlotFor, State.Tell;
    assert s'.InFlight(slot) ==
           s.InFlight(slot) + if s'.calls[c].inFlight && s.SlotFor(path) == slot then {c} else {};
    assert c !in s.InFlight(slot);
  }

  lemma EndChanges(s: State, c: nat, ok: bool, now: int, slot: Slot)
    requires s.In(slot).Some?
    ensures var a := End(c, ok, now);
            |Apply(s, a).InFlight(slot)| == |s.InFlight(slot)| + Change(s.In(slot).value, Heard(s, a, slot))
  {
    var s' := Apply(s, End(c, ok, now));
    forall p ensures s'.SlotFor(p) == s.SlotFor(p) {
      SlotsAreFixed(s, End(c, ok, now), p);
    }
    hide IsMutation, B.Apply, B.Value.Admits, State.SlotFor, State.Tell;
    if c < |s.calls| {
      assert s'.InFlight(slot) == s.InFlight(slot) - {c};
    }
  }

  /** However calls interleave: the breaker in a slot goes through exactly the trace of the calls
      routed to it, so traffic of a kind with a breaker of its own never moves another; and every
      call it admitted is either still in flight or has reported exactly one outcome. */
  lemma {:induction false} BreakersHearTheirOwn(s: State, acts: seq<Action>, slot: Slot)
    requires s.calls == [] && s.In(slot).Some?
    ensures var b, es := s.In(slot).value, Trace(s, acts, slot);
            && After(s, acts).In(slot) == Some(B.After(b, es))
            && Outcomes(es) + |After(s, acts).InFlight(slot)| == B.Admissions(b, es)
  {
    hide IsMutation, B.Apply, B.Value.Admits, State.SlotFor, Apply, Heard;
    if acts == [] {
      assert s.InFlight(slot) == {};
    } else {
      var init, a := acts[..|acts| - 1], acts[|acts| - 1];
      BreakersHearTheirOwn(s, init, slot);
      var m := After(s, init);
      ApplyTells(m, a, slot);
      AppendEvent(s.In(slot).value, Trace(s, init, slot), Heard(m, a, slot));
      if a.Begin? {
        BeginChanges(m, a.path, a.now, slot);
      } else {
        EndChanges(m, a.c, a.ok, a.now, slot);
      }
    }
  }

  predicate QueriesOnly(s: State) {
    forall c :: 0 <= c < |s.calls| ==> !IsMutation(s.calls[c].path)
  }

  lemma QueryStep(s: State, a: Action)
    requires QueriesOnly(s) && s.mutation.Some? && (a.Begin? ==> !IsMutation(a.path))
    ensures QueriesOnly(Apply(s, a)) && Apply(s, a).mutation == s.mutation
  {
    hide IsMutation, B.Apply, B.Value.Admits;
  }

  /** In particular a mutation breaker hears mutations only: queries, however they fail, leave it
      alone. */
  lemma {:induction false} QueriesSpareTheMutationBreaker(s: State, acts: seq<Action>)
    requires s.calls == [] && s.mutation.Some?
    requires forall i :: 0 <= i < |acts| && acts[i].Begin? ==> NormalizePath(acts[i].path) !in MUTATIONS
    ensures After(s, acts).mutation == s.mutation && QueriesOnly(After(s, acts))
  {
    hide IsMutation, Apply, NormalizePath;
    if acts != [] {
      var init, a := acts[..|acts| - 1], acts[|acts| - 1];
      QueriesSpareTheMutationBreaker(s, init);
      if a.Begin? {
        MutationIffNormalFormIs(a.path);
      }
      QueryStep(After(s, init), a);
    }
  }
}
