/**
  Minimum price increments per exchange family and price band, and the rounding to them
  that every order price goes through.
 */
module TickRounding {
  import opened Rounding

  /** "ASX" has its own bands; every other exchange key takes the US ones. */
  datatype Venue = ASX | US

  /** How many ticks make one unit of currency in the band of `price`. */
  function TicksPerUnit(price: real, v: Venue): (k: int)
    ensures k in {100, 200, 1000, 10000}
  {
    match v
    case ASX => if price < 0.10 then 1000 else if price < 2.00 then 200 else 100
    case US => if price < 1.00 then 10000 else 100
  }

  /** The tick itself. */
  function Tick(price: real, v: Venue): (t: real)
    ensures t == 1.0 / TicksPerUnit(price, v) as real
    ensures 0.0 < t <= 0.01
  {
    match v
    case ASX => if price < 0.10 then 0.001 else if price < 2.00 then 0.005 else 0.01
    case US => if price < 1.00 then 0.0001 else 0.01
  }

  function RoundToTick(price: real, v: Venue): real {
    RoundAt(RoundAt(price, TicksPerUnit(price, v)), 10000)
  }

  /** The closing round to four decimals never changes anything: every tick is a multiple of 0.0001. */
  lemma FourDecimalsKeepTicks(price: real, v: Venue)
    ensures RoundToTick(price, v) == RoundAt(price, TicksPerUnit(price, v))
  {
    var k := TicksPerUnit(price, v);
    RoundAtNear(price, k);
    FinerGrid(RoundAt(price, k), k, 10000 / k);
    RoundAtFixed(RoundAt(price, k), 10000);
  }

  /** The bands: which whole ticks a price goes to on either exchange, and how big they are. */
  lemma TickBands(price: real)
    ensures RoundToTick(price, ASX) == RoundAt(price, if price < 0.10 then 1000 else if price < 2.00 then 200 else 100)
    ensures Tick(price, ASX) == if price < 0.10 then 0.001 else if price < 2.00 then 0.005 else 0.01
    ensures RoundToTick(price, US) == RoundAt(price, if price < 1.00 then 10000 else 100)
    ensures Tick(price, US) == if price < 1.00 then 0.0001 else 0.01
  {
    hide RoundAt;
    FourDecimalsKeepTicks(price, ASX);
    FourDecimalsKeepTicks(price, US);
  }

  lemma TickNear(price: real, v: Venue)
    ensures var r, k := RoundToTick(price, v), TicksPerUnit(price, v);
      && OnGrid(r, k)
      && price - Tick(price, v) / 2.0 <= r <= price + Tick(price, v) / 2.0
      && (price * k as real - (price * k as real).Floor as real == 0.5 ==> (r * k as real).Floor % 2 == 0)
  {
    hide RoundToTick, RoundAt, HalfEven;
    FourDecimalsKeepTicks(price, v);
    var k := TicksPerUnit(price, v);
    RoundAtNear(price, k);
    assert 0.5 / k as real == Tick(price, v) / 2.0;
    if price * k as real - (price * k as real).Floor as real == 0.5 {
      RoundAtTie(price, k);
    }
  }

  lemma RoundedPriceNonNegative(price: real, v: Venue)
    requires 0.0 <= price
    ensures 0.0 <= RoundToTick(price, v)
  {
    FourDecimalsKeepTicks(price, v);
    RoundAtFixed(0.0, TicksPerUnit(price, v));
    RoundAtMonotone(0.0, price, TicksPerUnit(price, v));
  }

  /** Where a price just below a band edge rounds up to, and the edge itself, are on both grids. */
  lemma BandEdges()
    ensures RoundAt(0.10, 1000) == 0.10 && RoundAt(0.10, 200) == 0.10
    ensures RoundAt(2.00, 200) == 2.00 && RoundAt(2.00, 100) == 2.00
    ensures RoundAt(1.00, 10000) == 1.00 && RoundAt(1.00, 100) == 1.00
  {
    RoundAtFixed(0.10, 1000);
    RoundAtFixed(0.10, 200);
    RoundAtFixed(2.00, 200);
    RoundAtFixed(2.00, 100);
    RoundAtFixed(1.00, 10000);
    RoundAtFixed(1.00, 100);
  }

  /** A price below a band edge never rounds past the edge, one at or above it never below the edge. */
  lemma StaysBesideEdge(price: real, edge: real, v: Venue)
    requires (v == ASX && edge in {0.10, 2.00}) || (v == US && edge == 1.00)
    ensures price < edge ==> RoundToTick(price, v) <= edge
    ensures edge <= price ==> edge <= RoundToTick(price, v)
  {
    BandEdges();
    FourDecimalsKeepTicks(price, v);
    var k := TicksPerUnit(price, v);
    if v == ASX && edge == 2.00 && price < 0.10 {
      RoundAtNear(price, k);
    } else if v == ASX && edge == 0.10 && 2.00 <= price {
      RoundAtNear(price, k);
    } else if price < edge {
      RoundAtMonotone(price, edge, k);
    } else {
      RoundAtMonotone(edge, price, k);
    }
  }

  lemma TickMonotone(p: real, q: real, v: Venue)
    requires p <= q
    ensures RoundToTick(p, v) <= RoundToTick(q, v)
  {
    if TicksPerUnit(p, v) == TicksPerUnit(q, v) {
      FourDecimalsKeepTicks(p, v);
      FourDecimalsKeepTicks(q, v);
      RoundAtMonotone(p, q, TicksPerUnit(p, v));
    } else {
      var edge := if v == US then 1.00 else if p < 0.10 then 0.10 else 2.00;
      StaysBesideEdge(p, edge, v);
      StaysBesideEdge(q, edge, v);
    }
  }

  /** The rounded price is a whole number of ticks of the band it landed in, so rounding again changes nothing. */
  lemma TickIdempotent(price: real, v: Venue)
    ensures var r := RoundToTick(price, v); OnGrid(r, TicksPerUnit(r, v)) && RoundToTick(r, v) == r
  {
    var r, k := RoundToTick(price, v), TicksPerUnit(price, v);
    TickNear(price, v);
    if v == US {
      StaysBesideEdge(price, 1.00, v);
    } else {
      StaysBesideEdge(price, 0.10, v);
      StaysBesideEdge(price, 2.00, v);
    }
    FourDecimalsKeepTicks(r, v);
    RoundAtFixed(r, TicksPerUnit(r, v));
  }
}
