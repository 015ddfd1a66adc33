/** The inner single-flight of internal/auth: `pending` and `flights`, and the channels that
    end each flight. `Flights` is the value; the class is the mutable manager. */
module TokenManager {
  import opened Auth

  /** A completion channel: whose flight it ends, and how often it was closed. A second close
      would panic. */
  datatype Channel = Channel(account: AccountId, closes: nat)

  datatype Flights = Flights(pending: map<AccountId, bool>, flights: map<AccountId, nat>, channels: seq<Channel>) {

    predicate Valid() {
      && pending.Keys == flights.Keys
      && (forall a :: a in pending ==> pending[a])
      && (forall a :: a in flights ==> flights[a] < |channels|)
      && (forall a :: a in flights ==> channels[flights[a]] == Channel(a, 0))
      && (forall ch :: 0 <= ch < |channels| ==> channels[ch].closes == if Running(ch) then 0 else 1)
    }

    /** Channel `ch` is the one its account's flight will close. */
    predicate Running(ch: nat) {
      ch < |channels| && channels[ch].account in flights && flights[channels[ch].account] == ch
    }

    predicate InProgress(a: AccountId) {
      a in pending && pending[a]
    }

    /** The channel `beginLogin` hands back: the running flight's, or a new one. */
    function Handed(a: AccountId): nat {
      if InProgress(a) && a in flights then flights[a] else |channels|
    }

    function Begin(a: AccountId): Flights {
      if InProgress(a) then this
      else Flights(pending[a := true], flights[a := |channels|], channels + [Channel(a, 0)])
    }

    function End(a: AccountId): Flights {
      Flights(pending - {a}, flights - {a},
              if a in flights && flights[a] < |channels|
              then channels[flights[a] := channels[flights[a]].(closes := channels[flights[a]].closes + 1)]
              else channels)
    }
  }

  /** Beginning and ending flights keep `pending` and `flights` on the same accounts and close
      every channel exactly when its flight ends, once, whoever calls them and in whatever order. */
  lemma BeginKeepsValid(f: Flights, a: AccountId)
    requires f.Valid()
    ensures f.Begin(a).Valid() && f.Begin(a).InProgress(a)
  {
  }

  lemma EndKeepsValid(f: Flights, a: AccountId)
    requires f.Valid()
    ensures f.End(a).Valid() && !f.End(a).InProgress(a)
    ensures f.InProgress(a) ==> f.End(a).channels[f.flights[a]] == Channel(a, 1)
  {
  }

  /** A flight leaves nothing behind but one closed channel. */
  lemma EndUndoesBegin(f: Flights, a: AccountId)
    requires f.Valid() && !f.InProgress(a)
    ensures f.Begin(a).End(a) == f.(channels := f.channels + [Channel(a, 1)])
  {
    var g := f.Begin(a).End(a);
    assert g.pending == f.pending && g.flights == f.flights;
    assert g.channels == f.channels + [Channel(a, 1)];
  }

  /** The mutable manager. A channel handle is its position in `channels`. */
  class TokenManager {
    var pending: map<AccountId, bool>
    var flights: map<AccountId, nat>
    var channels: seq<Channel>

    ghost function Value(): Flights
      reads this
    {
      Flights(pending, flights, channels)
    }

    constructor ()
      ensures Value() == Flights(map[], map[], [])
    {
      pending, flights, channels := map[], map[], [];
    }

    method BeginLogin(a: AccountId) returns (done: nat, leader: bool)
      requires Value().Valid()
      modifies this
      ensures Value().Valid() && Value() == old(Value()).Begin(a)
      ensures leader == !old(Value()).InProgress(a)
      ensures done == old(Value()).Handed(a)
      ensures done < |channels| && channels[done] == Channel(a, 0)
    {
      BeginKeepsValid(Value(), a);
      if a in pending && pending[a] {
        return flights[a], false;
      }
      pending := pending[a := true];
      done, leader := |channels|, true;
      channels := channels + [Channel(a, 0)];
      flights := flights[a := done];
    }

    method EndLogin(a: AccountId)
      requires Value().Valid()
      modifies this
      ensures Value().Valid() && Value() == old(Value()).End(a)
    {
      EndKeepsValid(Value(), a);
      var open := a in flights;
      var ch := if open then flights[a] else 0;
      flights := flights - {a};
      pending := pending - {a};
      if open {
        channels := channels[ch := channels[ch].(closes := channels[ch].closes + 1)];
      }
    }
  }
}
