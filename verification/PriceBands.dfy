/** The HKEX minimum-price-increment bands and rounding to a tick. Prices and ticks are counted in
    thousandths of a dollar; a price may have any fraction of one. */
module PriceBands {
  import opened Prelude

  datatype Band = Band(upper: int, tick: int)

  const BANDS: seq<Band> := [
    Band(250, 1), Band(10_000, 5), Band(20_000, 10), Band(50_000, 20), Band(100_000, 50),
    Band(200_000, 100), Band(500_000, 200), Band(1_000_000, 500), Band(2_000_000, 1_000),
    Band(5_000_000, 2_000), Band(9_995_000, 5_000)]

  /** Every bound lies on the grid of the band below it and of the band above it. */
  lemma BoundsAreOnBothGrids(i: nat)
    requires i < |BANDS|
    ensures BANDS[i].tick > 0 && BANDS[i].upper % BANDS[i].tick == 0
    ensures i > 0 ==> 0 <= BANDS[i - 1].upper < BANDS[i].upper && BANDS[i - 1].upper % BANDS[i].tick == 0
  {
  }

  lemma {:induction false} BoundsAscend(i: nat, j: nat)
    requires i < j < |BANDS|
    ensures BANDS[i].upper < BANDS[j].upper
  {
    BoundsAreOnBothGrids(j);
    if i < j - 1 {
      BoundsAscend(i, j - 1);
    }
  }

  lemma {:induction false} TicksAscend(i: nat, j: nat)
    requires i < j < |BANDS|
    ensures BANDS[i].tick < BANDS[j].tick
  {
    assert forall k :: 0 < k < |BANDS| ==> BANDS[k - 1].tick < BANDS[k].tick;
    if i < j - 1 {
      TicksAscend(i, j - 1);
    }
  }

  /** Band i is the one that covers `p`: above the bound below it, up to and including its own. */
  predicate InBand(p: real, i: nat) {
    i < |BANDS| && p <= BANDS[i].upper as real && (i > 0 ==> BANDS[i - 1].upper as real < p)
  }

  /** The first band whose bound is not exceeded is the only one that covers the price; above the
      last bound there is none, and no tick is invented. */
  method TickAtPrice(p: real) returns (tick: Option<int>)
    ensures tick.Some? <==> p <= 9_995_000.0
    ensures forall i: nat :: InBand(p, i) ==> tick == Some(BANDS[i].tick)
    ensures tick.Some? ==> exists i: nat :: InBand(p, i)
  {
    for i := 0 to |BANDS|
      invariant forall j :: 0 <= j < i ==> BANDS[j].upper as real < p
    {
      if p <= BANDS[i].upper as real {
        if i < |BANDS| - 1 {
          BoundsAscend(i, |BANDS| - 1);
        }
        assert InBand(p, i);
        forall j: nat | InBand(p, j) ensures j == i {
          BandIsUnique(p, i, j);
        }
        return Some(BANDS[i].tick);
      }
    }
    assert BANDS[10].upper == 9_995_000;
    return None;
  }

  lemma BandIsUnique(p: real, i: nat, j: nat)
    requires InBand(p, i) && InBand(p, j)
    ensures i == j
  {
    if i < j - 1 {
      BoundsAscend(i, j - 1);
    } else if j < i - 1 {
      BoundsAscend(j, i - 1);
    }
  }

  /** A dearer price never has a finer tick. */
  lemma TickGrowsWithPrice(p: real, q: real, i: nat, j: nat)
    requires p <= q && InBand(p, i) && InBand(q, j)
    ensures BANDS[i].tick <= BANDS[j].tick
  {
    if j < i - 1 {
      BoundsAscend(j, i - 1);
    } else if i < j {
      TicksAscend(i, j);
    }
  }

  // ---- rounding ----

  const SCALE := 10_000_000_000_000_000.0

  /** A quotient kept to 16 decimal places, halves away from zero, as the decimal library divides. */
  function Quotient(x: real): real {
    if x >= 0.0 then (x * SCALE + 0.5).Floor as real / SCALE
    else -((-x * SCALE + 0.5).Floor as real / SCALE)
  }

  /** How many ticks `p` is. */
  function Ratio(p: real, tick: real): real
    requires tick != 0.0
  {
    p / tick
  }

  function Times(x: real, tick: real): real {
    x * tick
  }

  /** A price without a tick is left alone. */
  function Round(p: real, tick: real): real {
    if tick == 0.0 then p else Times(Quotient(Ratio(p, tick)).Floor as real, tick)
  }

  /** A whole number of ticks. */
  predicate OnGrid(p: real, tick: real)
    requires tick != 0.0
  {
    Ratio(p, tick) == Ratio(p, tick).Floor as real
  }

  /** The checks an order price passes on a tick; an unknown tick, or one that is not positive,
      skips the grid test. */
  predicate Validates(p: real, tick: Option<real>) {
    p >= 0.0 && (tick.Some? && tick.value > 0.0 ==> OnGrid(p, tick.value))
  }

  lemma FloorPlus(n: int, y: real)
    ensures (n as real + y).Floor == n + y.Floor
  {
  }

  const PLACES := 10_000_000_000_000_000

  /** n whole ones and u units of the 16th place. */
  lemma FloorOfPlaces(n: int, u: int)
    requires 0 <= u <= PLACES
    ensures (n as real + u as real / SCALE).Floor == if u == PLACES then n + 1 else n
  {
    var y := u as real / SCALE;
    assert 0.0 <= y <= 1.0 && (y == 1.0 <==> u == PLACES);
    FloorPlus(n, y);
  }

  /** Whether the 17th place of the quotient carries all the way into the next whole number. */
  predicate Carries(x: real) {
    var f := (x - x.Floor as real) * SCALE;
    if x >= 0.0 then f >= SCALE - 0.5 else f > SCALE - 0.5
  }

  lemma QuotientFloorUp(x: real)
    requires x >= 0.0
    ensures Quotient(x).Floor == if Carries(x) then x.Floor + 1 else x.Floor
  {
    var n := x.Floor;
    var f := (x - n as real) * SCALE;
    assert x * SCALE + 0.5 == (n * PLACES) as real + (f + 0.5);
    FloorPlus(n * PLACES, f + 0.5);
    var u := (f + 0.5).Floor;
    assert (n * PLACES + u) as real / SCALE == n as real + u as real / SCALE;
    FloorOfPlaces(n, u);
  }

  lemma QuotientFloorDown(x: real)
    requires x < 0.0
    ensures Quotient(x).Floor == if Carries(x) then x.Floor + 1 else x.Floor
  {
    var n := x.Floor;
    var f := (x - n as real) * SCALE;
    assert -x * SCALE + 0.5 == (-n * PLACES) as real + (0.5 - f);
    FloorPlus(-n * PLACES, 0.5 - f);
    var u := -((0.5 - f).Floor);
    assert -((-n * PLACES - u) as real / SCALE) == n as real + u as real / SCALE;
    FloorOfPlaces(n, u);
  }

  lemma RatioAndTimes(p: real, tick: real)
    requires tick != 0.0
    ensures Times(Ratio(p, tick), tick) == p && Ratio(Times(p, tick), tick) == p
  {
  }

  lemma TimesGrows(x: real, y: real, tick: real)
    requires x <= y
    ensures tick > 0.0 ==> Times(x, tick) <= Times(y, tick) && (x < y ==> Times(x, tick) < Times(y, tick))
    ensures tick < 0.0 ==> Times(x, tick) >= Times(y, tick) && (x < y ==> Times(x, tick) > Times(y, tick))
  {
    var z := y - x;
    assert z * tick == y * tick - x * tick;
    if z > 0.0 && tick > 0.0 {
      Positive(z, tick);
    } else if z > 0.0 && tick < 0.0 {
      Positive(z, -tick);
      assert z * -tick == -(z * tick);
    }
  }

  lemma Positive(a: real, b: real)
    requires a > 0.0 && b > 0.0
    ensures a * b > 0.0
  {
  }

  lemma TimesNext(x: real, tick: real)
    ensures Times(x + 1.0, tick) == Times(x, tick) + tick
  {
  }

  function Ticks(k: nat, tick: real): real {
    k as real * tick
  }

  /** On a positive tick exactly the prices that are a whole number of ticks, none negative, pass; on
      any other every price that is not negative does. */
  lemma ValidatesIff(p: real, tick: Option<real>)
    ensures tick.Some? && tick.value > 0.0 ==>
              (Validates(p, tick) <==> exists k: nat :: p == Ticks(k, tick.value))
    ensures tick.None? || tick.value <= 0.0 ==> (Validates(p, tick) <==> p >= 0.0)
  {
    if tick.Some? && tick.value > 0.0 {
      var t := tick.value;
      var n := Ratio(p, t).Floor;
      RatioAndTimes(p, t);
      if Validates(p, tick) {
        assert n >= 0 by {
          RatioGrows(0.0, p, t);
        }
        assert p == Ticks(n, t);
      }
      if k: nat :| p == Ticks(k, t) {
        RatioAndTimes(k as real, t);
        TimesGrows(0.0, k as real, t);
      }
    }
  }

  /** Rounding gives a grid price at or below the price and less than a tick away exactly when the
      quotient does not carry; when it does, it gives the grid price just above. On a negative tick
      below and above change places. */
  lemma RoundsDownIff(p: real, tick: real)
    requires tick != 0.0
    ensures OnGrid(Round(p, tick), tick)
    ensures tick > 0.0 ==>
              && (0.0 <= p - Round(p, tick) < tick <==> !Carries(Ratio(p, tick)))
              && (Carries(Ratio(p, tick)) ==> 0.0 < Round(p, tick) - p < tick)
    ensures tick < 0.0 ==>
              && (0.0 <= Round(p, tick) - p < -tick <==> !Carries(Ratio(p, tick)))
              && (Carries(Ratio(p, tick)) ==> 0.0 < p - Round(p, tick) < -tick)
  {
    var x := Ratio(p, tick);
    if x >= 0.0 {
      QuotientFloorUp(x);
    } else {
      QuotientFloorDown(x);
    }
    var n := x.Floor as real;
    assert Carries(x) ==> n < x;
    hide Times, Ratio, Carries, Quotient;
    RatioAndTimes(p, tick);
    RatioAndTimes(Quotient(x).Floor as real, tick);
    TimesGrows(n, x, tick);
    TimesGrows(x, n + 1.0, tick);
    TimesNext(n, tick);
  }

  /** A price a hair below a tick, and what it becomes. */
  lemma RoundingMayCarry()
    ensures var p := 0.99999999999999999; Carries(Ratio(p, 1.0)) && Round(p, 1.0) == 1.0 > p
  {
    var p := 0.99999999999999999;
    assert Ratio(p, 1.0) == p && p.Floor == 0;
    QuotientFloorUp(p);
    assert Quotient(p).Floor == 1;
  }

  // ---- rounding on the band's tick ----

  lemma BoundRatio(u: int, tick: int)
    requires tick > 0 && u % tick == 0
    ensures u as real == Times((u / tick) as real, tick as real) && Ratio(u as real, tick as real) == (u / tick) as real
    ensures OnGrid(u as real, tick as real)
  {
    assert u == (u / tick) * tick;
    assert u as real == (u / tick) as real * tick as real;
    RatioAndTimes((u / tick) as real, tick as real);
  }

  /** Rounding does not leave an interval whose ends are on the grid. */
  lemma RoundStaysBetween(p: real, lo: int, hi: int, tick: int)
    requires tick > 0 && lo % tick == 0 && hi % tick == 0 && lo as real <= p <= hi as real && p >= 0.0
    ensures lo as real <= Round(p, tick as real) <= hi as real
  {
    var t := tick as real;
    var x, a, b := Ratio(p, t), lo / tick, hi / tick;
    BoundRatio(lo, tick);
    BoundRatio(hi, tick);
    RatioGrows(lo as real, p, t);
    RatioGrows(p, hi as real, t);
    RatioGrows(0.0, p, t);
    assert Ratio(0.0, t) == 0.0;
    QuotientFloorUp(x);
    assert Carries(x) ==> x > x.Floor as real;
    var k := Quotient(x).Floor;
    assert a <= k <= b;
    TimesGrows(a as real, k as real, t);
    TimesGrows(k as real, b as real, t);
  }

  lemma RatioGrows(p: real, q: real, tick: real)
    requires tick > 0.0 && p <= q
    ensures Ratio(p, tick) <= Ratio(q, tick)
  {
  }

  /** A price the table covers, rounded on the tick of its band, is still covered and passes the
      checks on the tick looked up again for the rounded price, also where rounding reaches the
      band below or carries upward. */
  lemma RoundedPricePasses(p: real, i: nat)
    requires p >= 0.0 && InBand(p, i)
    ensures BANDS[i].tick > 0
    ensures var r := Round(p, BANDS[i].tick as real);
            exists j: nat :: InBand(r, j) && (j == i || j == i - 1) && Validates(r, Some(BANDS[j].tick as real))
  {
    BoundsAreOnBothGrids(i);
    var lo := if i == 0 then 0 else BANDS[i - 1].upper;
    RoundStaysBetween(p, lo, BANDS[i].upper, BANDS[i].tick);
    RoundsDownIff(p, BANDS[i].tick as real);
    var r := Round(p, BANDS[i].tick as real);
    hide Round, OnGrid;
    if i > 0 && r == lo as real {
      BoundsAreOnBothGrids(i - 1);
      BoundRatio(lo, BANDS[i - 1].tick);
      assert InBand(r, i - 1) && Validates(r, Some(BANDS[i - 1].tick as real));
    } else {
      assert InBand(r, i) && Validates(r, Some(BANDS[i].tick as real));
    }
  }

  lemma FractionIsFar(m: nat, d: nat)
    requires m < d < 2 * PLACES
    ensures 0.0 <= m as real / d as real < 1.0 && m as real / d as real * SCALE < SCALE - 0.5
  {
    var y := m as real / d as real;
    assert y * d as real == m as real;
    var z := 1.0 - y;
    assert z * d as real == (d - m) as real;
    assert z > 0.0;
    assert z * (2.0 * SCALE - d as real) > 0.0;
  }

  /** A price of at most fifteen decimal places, twelve below a thousandth, never carries: it is
      rounded down on every tick of the table. */
  lemma FinePricesRoundDown(c: nat, i: nat)
    requires i < |BANDS|
    ensures BANDS[i].tick > 0
    ensures var p := c as real / 1_000_000_000_000.0;
            0.0 <= p - Round(p, BANDS[i].tick as real) < BANDS[i].tick as real
  {
    BoundsAreOnBothGrids(i);
    var t := BANDS[i].tick;
    assert t <= 5_000;
    var d := 1_000_000_000_000 * t;
    var n, m := c / d, c % d;
    var p := c as real / 1_000_000_000_000.0;
    FractionIsFar(m, d);
    SplitRatio(c, n, m, t);
    assert Ratio(p, t as real).Floor == n;
    RoundsDownIff(p, t as real);
  }

  lemma SplitRatio(c: nat, n: nat, m: nat, t: nat)
    requires t > 0 && c == n * (1_000_000_000_000 * t) + m
    ensures Ratio(c as real / 1_000_000_000_000.0, t as real) == n as real + m as real / (1_000_000_000_000 * t) as real
  {
    var d := (1_000_000_000_000 * t) as real;
    var y := m as real / d;
    assert y * d == m as real;
    assert c as real == n as real * d + y * d;
    assert c as real / 1_000_000_000_000.0 == (n as real + y) * t as real;
    RatioAndTimes(n as real + y, t as real);
  }
}
