/** The market feed: the seeded stock list, listener registration, lookup by symbol,
    and the sweep loop that advances every stock and notifies every listener
    (MarketSimulator.java). */
module Simulator {
  import opened Stocks

  /** A registered observer (MarketListener); only its identity matters here. */
  datatype Listener = Listener(id: nat)

  /** One callback: `listener` was handed the stock whose state was `quote`. */
  datatype Notification = Notification(listener: Listener, quote: Quote)

  /** The callbacks of one notifyListeners call: every listener, in registration order,
      is handed the same quote. */
  function Notify(listeners: seq<Listener>, q: Quote): seq<Notification>
  {
    seq(|listeners|, j requires 0 <= j < |listeners| => Notification(listeners[j], q))
  }

  /** The callbacks of the first n stocks of a sweep whose stocks reached `quotes`:
      for each stock in list order, every listener in registration order. */
  function SweepTrace(quotes: seq<Quote>, listeners: seq<Listener>, n: nat): seq<Notification>
    requires n <= |quotes|
  {
    if n == 0 then []
    else SweepTrace(quotes, listeners, n - 1) + Notify(listeners, quotes[n - 1])
  }

  /** A sweep over n stocks makes n * |listeners| callbacks. */
  lemma {:induction false} SweepTraceLength(quotes: seq<Quote>, listeners: seq<Listener>, n: nat)
    requires n <= |quotes|
    ensures |SweepTrace(quotes, listeners, n)| == n * |listeners|
  {
    if n > 0 {
      SweepTraceLength(quotes, listeners, n - 1);
      RowStart(n - 1, |listeners|);
    }
  }

  /** The sweep trace is stocks x listeners in row-major order: entry i * |listeners| + j
      is listener j being told about stock i. */
  lemma {:induction false} SweepTraceAt(quotes: seq<Quote>, listeners: seq<Listener>, n: nat, i: nat, j: nat)
    requires n <= |quotes| && i < n && j < |listeners|
    ensures i * |listeners| + j < |SweepTrace(quotes, listeners, n)|
    ensures SweepTrace(quotes, listeners, n)[i * |listeners| + j] == Notification(listeners[j], quotes[i])
  {
    var m := |listeners|;
    var prefix := SweepTrace(quotes, listeners, n - 1);
    SweepTraceLength(quotes, listeners, n - 1);
    RowStart(n - 1, m);
    if i < n - 1 {
      SweepTraceAt(quotes, listeners, n - 1, i, j);
      assert i * m + j < |prefix|;
    } else {
      assert i * m + j == |prefix| + j;
    }
  }

  /** Row n of a row-major layout with rows of length m starts at n * m and ends at (n + 1) * m. */
  lemma RowStart(n: nat, m: nat)
    ensures (n + 1) * m == n * m + m
    ensures forall i: nat :: i < n ==> i * m + m <= n * m
  {
    forall i: nat | i < n ensures i * m + m <= n * m {
      MulMonotone(i + 1, n, m);
    }
  }

  lemma MulMonotone(a: nat, b: nat, m: nat)
    requires a <= b
    ensures a * m <= b * m
  {
    assert b * m - a * m == (b - a) * m;
  }

  /** One Math.random() draw in [0, 1) per stock. */
  predicate ValidDraws(n: nat, draws: seq<real>)
  {
    |draws| == n && forall i :: 0 <= i < |draws| ==> 0.0 <= draws[i] < 1.0
  }

  /** The quotes after one sweep: stock i advanced once with draw i. */
  function AdvanceEach(quotes: seq<Quote>, draws: seq<real>): seq<Quote>
    requires |draws| == |quotes|
  {
    seq(|quotes|, i requires 0 <= i < |quotes| => Advance(quotes[i], draws[i]))
  }

  /** A sweep keeps the list's length and symbol order; every day range still brackets its
      price, never narrows, and every price is above the floor. */
  lemma AdvanceEachKeepsSymbolsAndRange(quotes: seq<Quote>, draws: seq<real>)
    requires |draws| == |quotes|
    ensures |AdvanceEach(quotes, draws)| == |quotes|
    ensures forall i :: 0 <= i < |quotes| ==>
              AdvanceEach(quotes, draws)[i].symbol == quotes[i].symbol
              && AdvanceEach(quotes, draws)[i].dayHigh >= quotes[i].dayHigh
              && AdvanceEach(quotes, draws)[i].dayLow <= quotes[i].dayLow
              && InRange(AdvanceEach(quotes, draws)[i])
              && AdvanceEach(quotes, draws)[i].price >= MinPrice
  {
    forall i | 0 <= i < |quotes| {
      AdvanceKeepsRange(quotes[i], draws[i]);
    }
  }

  predicate ValidRounds(n: nat, rounds: seq<seq<real>>)
  {
    forall k :: 0 <= k < |rounds| ==> ValidDraws(n, rounds[k])
  }

  /** One draw per stock in every sweep. */
  predicate Shaped(n: nat, rounds: seq<seq<real>>)
  {
    forall k :: 0 <= k < |rounds| ==> |rounds[k]| == n
  }

  /** The quotes after the first n sweeps, sweep k using the draws rounds[k]. */
  function Sweeps(quotes: seq<Quote>, rounds: seq<seq<real>>, n: nat): (r: seq<Quote>)
    requires Shaped(|quotes|, rounds) && n <= |rounds|
    ensures |r| == |quotes|
  {
    if n == 0 then quotes
    else AdvanceEach(Sweeps(quotes, rounds, n - 1), rounds[n - 1])
  }

  /** The callbacks of the first n sweeps, sweep after sweep. */
  function SweepsTrace(quotes: seq<Quote>, rounds: seq<seq<real>>, listeners: seq<Listener>, n: nat): seq<Notification>
    requires Shaped(|quotes|, rounds) && n <= |rounds|
  {
    if n == 0 then []
    else SweepsTrace(quotes, rounds, listeners, n - 1) + SweepTrace(Sweeps(quotes, rounds, n), listeners, |quotes|)
  }

  /** Each sweep notifies every listener once per stock, so n sweeps make
      n * stocks * listeners callbacks. */
  lemma {:induction false} SweepsTraceLength(quotes: seq<Quote>, rounds: seq<seq<real>>, listeners: seq<Listener>, n: nat)
    requires Shaped(|quotes|, rounds) && n <= |rounds|
    ensures |SweepsTrace(quotes, rounds, listeners, n)| == n * (|quotes| * |listeners|)
  {
    if n > 0 {
      SweepsTraceLength(quotes, rounds, listeners, n - 1);
      SweepTraceLength(Sweeps(quotes, rounds, n), listeners, |quotes|);
      RowStart(n - 1, |quotes| * |listeners|);
    }
  }

  /** Any number of sweeps keeps the symbols in their order and every day range around its
      price, and no day range ever narrows. */
  lemma {:induction false} SweepsKeepSymbolsAndRange(quotes: seq<Quote>, rounds: seq<seq<real>>, n: nat)
    requires Shaped(|quotes|, rounds) && n <= |rounds|
    requires forall i :: 0 <= i < |quotes| ==> InRange(quotes[i])
    ensures forall i :: 0 <= i < |quotes| ==>
              Sweeps(quotes, rounds, n)[i].symbol == quotes[i].symbol
              && Sweeps(quotes, rounds, n)[i].dayHigh >= quotes[i].dayHigh
              && Sweeps(quotes, rounds, n)[i].dayLow <= quotes[i].dayLow
              && InRange(Sweeps(quotes, rounds, n)[i])
  {
    if n > 0 {
      SweepsKeepSymbolsAndRange(quotes, rounds, n - 1);
      AdvanceEachKeepsSymbolsAndRange(Sweeps(quotes, rounds, n - 1), rounds[n - 1]);
    }
  }

  /** The snapshots of a list of stocks, in list order. */
  function SnapshotsOf(stocks: seq<Stock>): seq<Quote>
    reads stocks
  {
    seq(|stocks|, i requires 0 <= i < |stocks| reads stocks => stocks[i].Snapshot())
  }

  predicate AllValid(stocks: seq<Stock>)
    reads stocks
  {
    forall i :: 0 <= i < |stocks| ==> stocks[i].Valid()
  }

  /** Index of the first stock with `symbol`, or |stocks| when there is none. */
  function FirstIndexOf(stocks: seq<Stock>, symbol: string): (i: nat)
    ensures i <= |stocks|
    ensures i < |stocks| ==> stocks[i].symbol == symbol
    ensures forall k :: 0 <= k < i ==> stocks[k].symbol != symbol
  {
    if stocks == [] then 0
    else if stocks[0].symbol == symbol then 0
    else 1 + FirstIndexOf(stocks[1..], symbol)
  }

  /** The symbols, prices and volatilities the simulator starts with, in list order. */
  function Seeds(): seq<Quote>
  {
    [ Quote("AAPL", 150.0, 150.0, 0.02, 150.0, 150.0),
      Quote("GOOGL", 2800.0, 2800.0, 0.015, 2800.0, 2800.0),
      Quote("MSFT", 280.0, 280.0, 0.018, 280.0, 280.0),
      Quote("AMZN", 3300.0, 3300.0, 0.025, 3300.0, 3300.0) ]
  }

  /** The seeded symbols are pairwise distinct, so lookup by symbol finds each seed at its own index. */
  lemma SeedsDistinct()
    ensures |Seeds()| == 4
    ensures forall i, j :: 0 <= i < j < |Seeds()| ==> Seeds()[i].symbol != Seeds()[j].symbol
    ensures forall i :: 0 <= i < |Seeds()| ==> InRange(Seeds()[i]) && Seeds()[i].price > 0.0
  {
  }

  /** The model of class MarketSimulator, with the `run` loop driven by explicit random draws.
      The stock list is filled by the constructor and never changed afterwards. */
  class MarketSimulator {
    var running: bool
    const stocks: seq<Stock>
    var listeners: seq<Listener>
    /** The position of each stock object in the list. */
    ghost const slot: map<Stock, nat>

    /** No stock object appears twice in the list: each one sits at its own slot. */
    ghost predicate Indexed()
    {
      forall k :: 0 <= k < |stocks| ==> stocks[k] in slot && slot[stocks[k]] == k
    }

    /** The stock objects are distinct and each keeps its day range around its price. */
    ghost predicate Valid()
      reads stocks
    {
      Indexed() && AllValid(stocks)
    }

    function Quotes(): seq<Quote>
      reads stocks
    {
      SnapshotsOf(stocks)
    }

    constructor ()
      ensures Valid() && running && listeners == []
      ensures fresh(stocks[..]) && Quotes() == Seeds()
    {
      var aapl := new Stock("AAPL", 150.0, 0.02);
      var googl := new Stock("GOOGL", 2800.0, 0.015);
      var msft := new Stock("MSFT", 280.0, 0.018);
      var amzn := new Stock("AMZN", 3300.0, 0.025);
      stocks := [aapl, googl, msft, amzn];
      slot := map[aapl := 0, googl := 1, msft := 2, amzn := 3];
      running := true;
      listeners := [];
    }

    method AddListener(listener: Listener)
      modifies this
      ensures listeners == old(listeners) + [listener]
      ensures running == old(running)
    {
      listeners := listeners + [listener];
    }

    /** The first stock whose symbol is `symbol`, or null. */
    function GetStock(symbol: string): (s: Stock?)
      ensures s == null <==> forall k :: 0 <= k < |stocks| ==> stocks[k].symbol != symbol
      ensures s != null ==> s.symbol == symbol
      ensures s != null ==> exists i :: 0 <= i < |stocks| && stocks[i] == s
                                       && forall k :: 0 <= k < i ==> stocks[k].symbol != symbol
    {
      var i := FirstIndexOf(stocks, symbol);
      if i < |stocks| then stocks[i] else null
    }

    /** notifyListeners: hand `stock` to every listener, in registration order. */
    method NotifyListeners(stock: Stock) returns (notes: seq<Notification>)
      ensures notes == Notify(listeners, stock.Snapshot())
    {
      var q := stock.Snapshot();
      notes := [];
      var j := 0;
      while j < |listeners|
        invariant 0 <= j <= |listeners| && |notes| == j
        invariant forall k :: 0 <= k < j ==> notes[k] == Notification(listeners[k], q)
      {
        notes := notes + [Notification(listeners[j], q)];
        j := j + 1;
      }
    }

    /** One pass of the `run` loop body: advance each stock once, in list order, and notify
        every listener right after each advance. `draws[i]` is stock i's random draw. */
    method Sweep(draws: seq<real>) returns (trace: seq<Notification>)
      requires Valid() && ValidDraws(|stocks|, draws)
      modifies stocks
      ensures listeners == old(listeners) && running == old(running)
      ensures Valid()
      ensures Quotes() == AdvanceEach(old(Quotes()), draws)
      ensures trace == SweepTrace(Quotes(), listeners, |stocks|)
    {
      ghost var before := Quotes();
      ghost var after := AdvanceEach(before, draws);
      trace := [];
      var i := 0;
      while i < |stocks|
        invariant 0 <= i <= |stocks|
        invariant forall k :: 0 <= k < i ==> stocks[k].Snapshot() == after[k]
        invariant forall k :: i <= k < |stocks| ==> stocks[k].Snapshot() == before[k]
        invariant trace == SweepTrace(after, listeners, i)
        invariant AllValid(stocks) && Indexed()
      {
        label Before:
        stocks[i].UpdatePrice(draws[i]);
        forall k | 0 <= k < |stocks| && k != i
          ensures stocks[k].Snapshot() == old@Before(stocks[k].Snapshot())
        {
          assert slot[stocks[k]] != slot[stocks[i]];
        }
        var notes := NotifyListeners(stocks[i]);
        trace := trace + notes;
        i := i + 1;
      }
      assert Quotes() == after;
    }

    /** stop: clear the running flag; the loop re-checks it before the next sweep. */
    method Stop()
      modifies this
      ensures !running
      ensures listeners == old(listeners) && unchanged(stocks)
    {
      running := false;
    }

    /** The `run` loop, fed with one list of draws per sweep. Another thread's stop() is
        modelled as arriving during sweep number `stopDuring`: that sweep completes and no
        later sweep starts. The loop also ends when the draws run out. */
    method Run(rounds: seq<seq<real>>, stopDuring: nat) returns (trace: seq<Notification>, sweeps: nat)
      requires Valid() && ValidRounds(|stocks|, rounds)
      modifies this, stocks
      ensures Valid() && listeners == old(listeners)
      ensures sweeps == (if !old(running) then 0
                         else if stopDuring < |rounds| then stopDuring + 1 else |rounds|)
      ensures running == (old(running) && |rounds| <= stopDuring)
      ensures Quotes() == Sweeps(old(Quotes()), rounds, sweeps)
      ensures trace == SweepsTrace(old(Quotes()), rounds, listeners, sweeps)
    {
      ghost var start := Quotes();
      assert Shaped(|start|, rounds);
      trace := [];
      sweeps := 0;
      while running && sweeps < |rounds|
        invariant sweeps <= |rounds| && sweeps <= stopDuring + 1
        invariant Indexed() && AllValid(stocks) && listeners == old(listeners)
        invariant running == (old(running) && sweeps <= stopDuring)
        invariant !old(running) ==> sweeps == 0
        invariant Quotes() == Sweeps(start, rounds, sweeps)
        invariant trace == SweepsTrace(start, rounds, listeners, sweeps)
      {
        var t := Sweep(rounds[sweeps]);
        trace := trace + t;
        if sweeps == stopDuring {
          Stop();
        }
        sweeps := sweeps + 1;
      }
    }
  }
}
