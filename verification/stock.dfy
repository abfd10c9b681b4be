/** Price and day-range state of one traded instrument (Stock.java). */
module Stocks {

  /** Price floor applied by every update. */
  const MinPrice: real := 0.01

  function Max(a: real, b: real): real { if a >= b then a else b }
  function Min(a: real, b: real): real { if a <= b then a else b }

  /** A read-only snapshot of a stock: what a listener or a trader sees. */
  datatype Quote = Quote(
    symbol: string,
    price: real,
    previousPrice: real,
    volatility: real,
    dayHigh: real,
    dayLow: real)

  /** The day range brackets the current price. */
  predicate InRange(q: Quote) { q.dayLow <= q.price <= q.dayHigh }

  /** The relative change drawn for one update: `draw` stands for Math.random(), in [0, 1). */
  function Change(volatility: real, draw: real): real { (draw - 0.5) * volatility }

  /** One price update of a stock whose random draw was `draw` (Math.random() gives one in [0, 1)). */
  function Advance(q: Quote, draw: real): Quote
  {
    var p := Max(MinPrice, q.price * (1.0 + Change(q.volatility, draw)));
    q.(previousPrice := q.price, price := p, dayHigh := Max(q.dayHigh, p), dayLow := Min(q.dayLow, p))
  }

  /** An update keeps the symbol and volatility, remembers the old price, floors the new one,
      and widens the day range just enough to take in the new price. */
  lemma AdvanceKeepsRange(q: Quote, draw: real)
    ensures Advance(q, draw).symbol == q.symbol && Advance(q, draw).volatility == q.volatility
    ensures Advance(q, draw).previousPrice == q.price
    ensures Advance(q, draw).price >= MinPrice
    ensures InRange(Advance(q, draw))
    ensures Advance(q, draw).dayHigh >= q.dayHigh && Advance(q, draw).dayLow <= q.dayLow
    ensures Advance(q, draw).dayHigh == q.dayHigh || Advance(q, draw).dayHigh == Advance(q, draw).price
    ensures Advance(q, draw).dayLow == q.dayLow || Advance(q, draw).dayLow == Advance(q, draw).price
  {
  }

  /** A draw in [0, 1) moves the price by less than half the volatility either way (before the floor). */
  lemma {:induction false} ChangeWithinHalfVolatility(volatility: real, draw: real)
    requires 0.0 <= draw < 1.0 && volatility >= 0.0
    ensures -volatility / 2.0 <= Change(volatility, draw) <= volatility / 2.0
    ensures volatility > 0.0 ==> Change(volatility, draw) < volatility / 2.0
  {
    var d := draw - 0.5;
    assert -0.5 <= d < 0.5;
    if volatility > 0.0 {
      assert d * volatility < 0.5 * volatility;
      assert -0.5 * volatility <= d * volatility;
    } else {
      assert volatility == 0.0;
    }
  }

  /** From a positive price, one update stays inside the band price * (1 -/+ volatility/2), floored. */
  lemma {:induction false} AdvanceStaysInBand(q: Quote, draw: real)
    requires 0.0 <= draw < 1.0
    requires q.price > 0.0 && q.volatility >= 0.0
    ensures q.price * (1.0 - q.volatility / 2.0) <= Advance(q, draw).price
    ensures Advance(q, draw).price <= Max(MinPrice, q.price * (1.0 + q.volatility / 2.0))
  {
    ChangeWithinHalfVolatility(q.volatility, draw);
    ScaledWithinBand(q.price, q.volatility, Change(q.volatility, draw));
  }

  /** Scaling a positive price by 1 + c with |c| <= v/2, then flooring, lands in the band. */
  lemma ScaledWithinBand(p: real, v: real, c: real)
    requires p > 0.0 && -v / 2.0 <= c <= v / 2.0
    ensures p * (1.0 - v / 2.0) <= Max(MinPrice, p * (1.0 + c))
    ensures Max(MinPrice, p * (1.0 + c)) <= Max(MinPrice, p * (1.0 + v / 2.0))
  {
    MulLeftMonotone(p, 1.0 - v / 2.0, 1.0 + c);
    MulLeftMonotone(p, 1.0 + c, 1.0 + v / 2.0);
  }

  lemma MulLeftMonotone(k: real, a: real, b: real)
    requires k >= 0.0 && a <= b
    ensures k * a <= k * b
  {
    assert k * b - k * a == k * (b - a);
  }

  /** The quote after a series of updates, one per draw, in order. */
  function AdvanceAll(q: Quote, draws: seq<real>): Quote
  {
    if draws == [] then q
    else Advance(AdvanceAll(q, draws[..|draws| - 1]), draws[|draws| - 1])
  }

  /** Over any number of updates the symbol and volatility stay fixed, the day high
      never falls, the day low never rises, and once updated the price is above the floor
      and inside the day range. */
  lemma {:induction false} AdvanceAllKeepsRange(q: Quote, draws: seq<real>)
    ensures AdvanceAll(q, draws).symbol == q.symbol
    ensures AdvanceAll(q, draws).volatility == q.volatility
    ensures AdvanceAll(q, draws).dayHigh >= q.dayHigh
    ensures AdvanceAll(q, draws).dayLow <= q.dayLow
    ensures InRange(q) ==> InRange(AdvanceAll(q, draws))
    ensures draws != [] ==> AdvanceAll(q, draws).price >= MinPrice && InRange(AdvanceAll(q, draws))
  {
    if draws != [] {
      AdvanceAllKeepsRange(q, draws[..|draws| - 1]);
      AdvanceKeepsRange(AdvanceAll(q, draws[..|draws| - 1]), draws[|draws| - 1]);
    }
  }

  /** The day high after a series of updates bounds every price reached on the way,
      and likewise the day low. */
  lemma {:induction false} AdvanceAllRangeCoversPath(q: Quote, draws: seq<real>, k: nat)
    requires k <= |draws|
    requires InRange(q)
    ensures AdvanceAll(q, draws[..k]).price <= AdvanceAll(q, draws).dayHigh
    ensures AdvanceAll(q, draws).dayLow <= AdvanceAll(q, draws[..k]).price
  {
    if k == |draws| {
      assert draws[..k] == draws;
      AdvanceAllKeepsRange(q, draws);
    } else {
      var init := draws[..|draws| - 1];
      assert init[..k] == draws[..k];
      AdvanceAllRangeCoversPath(q, init, k);
      AdvanceKeepsRange(AdvanceAll(q, init), draws[|draws| - 1]);
    }
  }

  /** After at least one update, previousPrice is the price the stock had before the last update. */
  lemma {:induction false} PreviousPriceIsLastPrice(q: Quote, draws: seq<real>)
    requires draws != []
    ensures AdvanceAll(q, draws).previousPrice == AdvanceAll(q, draws[..|draws| - 1]).price
  {
  }

  /** One instrument; the model of class Stock. `symbol` and `volatility` are never reassigned. */
  class Stock {
    const symbol: string
    const volatility: real
    var price: real
    var previousPrice: real
    var dayHigh: real
    var dayLow: real

    function Snapshot(): Quote
      reads this
    {
      Quote(symbol, price, previousPrice, volatility, dayHigh, dayLow)
    }

    predicate Valid()
      reads this
    {
      dayLow <= price <= dayHigh
    }

    constructor (symbol: string, initialPrice: real, volatility: real)
      ensures Snapshot() == Quote(symbol, initialPrice, initialPrice, volatility, initialPrice, initialPrice)
      ensures Valid()
    {
      this.symbol := symbol;
      this.price := initialPrice;
      this.volatility := volatility;
      this.previousPrice := initialPrice;
      this.dayHigh := initialPrice;
      this.dayLow := initialPrice;
    }

    /** `draw` is the value Math.random() returned for this update. */
    method UpdatePrice(draw: real)
      requires 0.0 <= draw < 1.0
      modifies this
      ensures Snapshot() == Advance(old(Snapshot()), draw)
      ensures Valid()
      ensures price >= MinPrice && previousPrice == old(price)
      ensures dayHigh >= old(dayHigh) && dayLow <= old(dayLow)
    {
      previousPrice := price;
      var change := Change(volatility, draw);
      price := Max(MinPrice, price * (1.0 + change));
      dayHigh := Max(dayHigh, price);
      dayLow := Min(dayLow, price);
    }
  }
}
