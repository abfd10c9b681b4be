/** The cash/holdings/transaction-log ledger of one trader (Portfolio.java, Transaction.java). */
module Portfolios {

  datatype TransactionType = BUY | SELL

  /** One committed trade. The commit timestamp is not modelled. */
  datatype Transaction = Transaction(symbol: string, shares: int, price: real, kind: TransactionType)

  /** The whole ledger as one value: cash, symbol -> share count, and the trade log. */
  datatype Ledger = Ledger(cash: real, holdings: map<string, int>, transactions: seq<Transaction>)

  /** Shares held of `symbol`; an absent entry counts as zero (getOrDefault(symbol, 0)). */
  function Holding(holdings: map<string, int>, symbol: string): int
  {
    if symbol in holdings then holdings[symbol] else 0
  }

  /** No negative cash and no negative share count. */
  predicate Sound(l: Ledger)
  {
    l.cash >= 0.0 && forall s :: s in l.holdings ==> l.holdings[s] >= 0
  }

  function Cost(price: real, shares: int): real { price * shares as real }

  /** A buy goes through unless its cost exceeds the cash. */
  predicate CanBuy(l: Ledger, price: real, shares: int) { !(Cost(price, shares) > l.cash) }

  /** A sell goes through unless fewer shares are held than asked for. */
  predicate CanSell(l: Ledger, symbol: string, shares: int) { !(Holding(l.holdings, symbol) < shares) }

  /** buyStock as written: no check on the sign of `shares` or `price`. */
  function Buy(l: Ledger, symbol: string, price: real, shares: int): (r: Ledger)
    ensures !CanBuy(l, price, shares) ==> r == l
    ensures CanBuy(l, price, shares) ==>
      && r.cash == l.cash - Cost(price, shares)
      && r.cash >= 0.0
      && Holding(r.holdings, symbol) == Holding(l.holdings, symbol) + shares
      && r.holdings.Keys == l.holdings.Keys + {symbol}
      && (forall s :: s != symbol ==> Holding(r.holdings, s) == Holding(l.holdings, s))
      && r.transactions == l.transactions + [Transaction(symbol, shares, price, BUY)]
    ensures Sound(l) && shares >= 0 ==> Sound(r)
  {
    if Cost(price, shares) > l.cash then l
    else Ledger(l.cash - Cost(price, shares),
                l.holdings[symbol := Holding(l.holdings, symbol) + shares],
                l.transactions + [Transaction(symbol, shares, price, BUY)])
  }

  /** sellStock as written: no check on the sign of `shares` or `price`. */
  function Sell(l: Ledger, symbol: string, price: real, shares: int): (r: Ledger)
    ensures !CanSell(l, symbol, shares) ==> r == l
    ensures CanSell(l, symbol, shares) ==>
      && r.cash == l.cash + Cost(price, shares)
      && Holding(r.holdings, symbol) == Holding(l.holdings, symbol) - shares
      && Holding(r.holdings, symbol) >= 0
      && r.holdings.Keys == l.holdings.Keys + {symbol}
      && (forall s :: s != symbol ==> Holding(r.holdings, s) == Holding(l.holdings, s))
      && r.transactions == l.transactions + [Transaction(symbol, shares, price, SELL)]
    ensures Sound(l) && shares >= 0 && price >= 0.0 ==> Sound(r)
  {
    var current := Holding(l.holdings, symbol);
    if current < shares then l
    else Ledger(l.cash + Cost(price, shares),
                l.holdings[symbol := current - shares],
                l.transactions + [Transaction(symbol, shares, price, SELL)])
  }

  /** Buying and then selling the same quantity at the same price restores the cash exactly
      and the holding of every symbol (under the absent-means-zero reading). */
  lemma BuyThenSellRestores(l: Ledger, symbol: string, price: real, shares: int)
    requires CanBuy(l, price, shares)
    requires Holding(l.holdings, symbol) >= 0
    ensures CanSell(Buy(l, symbol, price, shares), symbol, shares)
    ensures Sell(Buy(l, symbol, price, shares), symbol, price, shares).cash == l.cash
    ensures forall s :: Holding(Sell(Buy(l, symbol, price, shares), symbol, price, shares).holdings, s)
                        == Holding(l.holdings, s)
    ensures |Sell(Buy(l, symbol, price, shares), symbol, price, shares).transactions| == |l.transactions| + 2
  {
  }

  /** The worked session: 10000 cash, buy 10 AAPL at 150, sell 4 AAPL at 155. */
  lemma SessionExample()
    ensures var l0 := Ledger(10000.0, map[], []);
            var l1 := Buy(l0, "AAPL", 150.0, 10);
            var l2 := Sell(l1, "AAPL", 155.0, 4);
            && l1.cash == 8500.0 && Holding(l1.holdings, "AAPL") == 10
            && l2.cash == 9120.0 && Holding(l2.holdings, "AAPL") == 6
            && l2.transactions == [Transaction("AAPL", 10, 150.0, BUY), Transaction("AAPL", 4, 155.0, SELL)]
  {
  }

  /** As written, a negative share count slips through both checks: a buy of -10 shares
      credits cash and leaves a negative holding, and a sell of -10 shares debits cash
      below zero. */
  lemma NegativeSharesBreakLedger()
    ensures var empty := Ledger(0.0, map[], []);
            && Sound(empty)
            && CanBuy(empty, 150.0, -10)
            && Holding(Buy(empty, "AAPL", 150.0, -10).holdings, "AAPL") == -10
            && Buy(empty, "AAPL", 150.0, -10).cash == 1500.0
            && !Sound(Buy(empty, "AAPL", 150.0, -10))
            && CanSell(empty, "AAPL", -10)
            && Sell(empty, "AAPL", 150.0, -10).cash == -1500.0
            && !Sound(Sell(empty, "AAPL", 150.0, -10))
  {
    var empty := Ledger(0.0, map[], []);
    assert "AAPL" in Buy(empty, "AAPL", 150.0, -10).holdings;
  }

  /** Reasons a trade is refused, once quantities are validated. */
  datatype TradeError = InsufficientFunds | InsufficientShares | InvalidQuantity

  datatype Order = Order(kind: TransactionType, symbol: string, price: real, shares: int)

  datatype TradeResult = Done(ledger: Ledger) | Rejected(reason: TradeError)

  /** A trade with the missing quantity check added: share counts and prices must be positive.
      Otherwise it behaves as the as-written Buy or Sell. */
  function Execute(l: Ledger, o: Order): (r: TradeResult)
    ensures r.Rejected? && r.reason == InvalidQuantity <==> o.shares <= 0 || o.price <= 0.0
    ensures r.Rejected? && r.reason == InsufficientFunds <==>
              o.shares > 0 && o.price > 0.0 && o.kind == BUY && !CanBuy(l, o.price, o.shares)
    ensures r.Rejected? && r.reason == InsufficientShares <==>
              o.shares > 0 && o.price > 0.0 && o.kind == SELL && !CanSell(l, o.symbol, o.shares)
    ensures r.Done? ==> r.ledger == (if o.kind == BUY then Buy(l, o.symbol, o.price, o.shares)
                                     else Sell(l, o.symbol, o.price, o.shares))
    ensures r.Done? && Sound(l) ==> Sound(r.ledger)
  {
    if o.shares <= 0 || o.price <= 0.0 then Rejected(InvalidQuantity)
    else match o.kind
      case BUY =>
        if CanBuy(l, o.price, o.shares) then Done(Buy(l, o.symbol, o.price, o.shares))
        else Rejected(InsufficientFunds)
      case SELL =>
        if CanSell(l, o.symbol, o.shares) then Done(Sell(l, o.symbol, o.price, o.shares))
        else Rejected(InsufficientShares)
  }

  /** The ledger after one order: a refused order leaves it as it was. */
  function Step(l: Ledger, o: Order): Ledger
  {
    match Execute(l, o)
    case Done(next) => next
    case Rejected(_) => l
  }

  /** The ledger after a series of orders, committed one at a time in order. */
  function Run(l: Ledger, orders: seq<Order>): Ledger
  {
    if orders == [] then l
    else Step(Run(l, orders[..|orders| - 1]), orders[|orders| - 1])
  }

  /** How many orders of a series were committed. */
  function Committed(l: Ledger, orders: seq<Order>): nat
  {
    if orders == [] then 0
    else Committed(l, orders[..|orders| - 1])
         + (if Execute(Run(l, orders[..|orders| - 1]), orders[|orders| - 1]).Done? then 1 else 0)
  }

  /** The log record a committed order leaves. */
  function Record(o: Order): Transaction
  {
    Transaction(o.symbol, o.shares, o.price, o.kind)
  }

  /** The records of the orders of a series that commit at their turn, in commit order. */
  function CommittedRecords(l: Ledger, orders: seq<Order>): seq<Transaction>
  {
    if orders == [] then []
    else
      var init, o := orders[..|orders| - 1], orders[|orders| - 1];
      CommittedRecords(l, init) + (if Execute(Run(l, init), o).Done? then [Record(o)] else [])
  }

  /** The signed cash effect of a log: sells add their proceeds, buys subtract their cost. */
  function CashFlow(log: seq<Transaction>): real
  {
    if log == [] then 0.0
    else
      var t := log[|log| - 1];
      CashFlow(log[..|log| - 1]) + (if t.kind == SELL then Cost(t.price, t.shares) else -Cost(t.price, t.shares))
  }

  /** The signed share effect of a log on one symbol. */
  function ShareFlow(log: seq<Transaction>, symbol: string): int
  {
    if log == [] then 0
    else
      var t := log[|log| - 1];
      ShareFlow(log[..|log| - 1], symbol)
      + (if t.symbol != symbol then 0 else if t.kind == BUY then t.shares else -t.shares)
  }

  lemma FlowsOfAppend(log: seq<Transaction>, t: Transaction, symbol: string)
    ensures CashFlow(log + [t]) == CashFlow(log) + (if t.kind == SELL then Cost(t.price, t.shares) else -Cost(t.price, t.shares))
    ensures ShareFlow(log + [t], symbol) == ShareFlow(log, symbol)
              + (if t.symbol != symbol then 0 else if t.kind == BUY then t.shares else -t.shares)
  {
    assert (log + [t])[..|log|] == log;
  }

  /** The log after a series of orders is the old log followed by exactly the records of
      the committed orders, in the order they committed; refused orders leave no record. */
  lemma {:induction false} RunLogAppendsCommitted(l: Ledger, orders: seq<Order>)
    ensures Run(l, orders).transactions == l.transactions + CommittedRecords(l, orders)
    ensures |CommittedRecords(l, orders)| == Committed(l, orders)
    ensures |Run(l, orders).transactions| == |l.transactions| + Committed(l, orders)
  {
    if orders != [] {
      var init, o := orders[..|orders| - 1], orders[|orders| - 1];
      RunLogAppendsCommitted(l, init);
      if Execute(Run(l, init), o).Done? {
        assert Run(l, orders).transactions == Run(l, init).transactions + [Record(o)];
      }
    }
  }

  /** Conservation: the final cash is the initial cash minus every committed buy's cost
      plus every committed sell's proceeds, and each symbol's holding moved by exactly
      the committed buys minus sells of it. */
  lemma {:induction false} RunConservesCashAndShares(l: Ledger, orders: seq<Order>, symbol: string)
    ensures l.transactions <= Run(l, orders).transactions
    ensures Run(l, orders).cash == l.cash + CashFlow(Run(l, orders).transactions[|l.transactions|..])
    ensures Holding(Run(l, orders).holdings, symbol)
              == Holding(l.holdings, symbol) + ShareFlow(Run(l, orders).transactions[|l.transactions|..], symbol)
  {
    if orders == [] {
      assert Run(l, orders).transactions[|l.transactions|..] == [];
    } else {
      var init := orders[..|orders| - 1];
      var o := orders[|orders| - 1];
      RunConservesCashAndShares(l, init, symbol);
      var before := Run(l, init);
      var added := before.transactions[|l.transactions|..];
      if Execute(before, o).Done? {
        var t := Transaction(o.symbol, o.shares, o.price, o.kind);
        assert Run(l, orders).transactions == before.transactions + [t];
        assert Run(l, orders).transactions[|l.transactions|..] == added + [t];
        FlowsOfAppend(added, t, symbol);
      }
    }
  }

  /** With quantities validated, no series of orders can drive cash or a holding negative. */
  lemma {:induction false} RunKeepsSound(l: Ledger, orders: seq<Order>)
    requires Sound(l)
    ensures Sound(Run(l, orders))
  {
    if orders != [] {
      RunKeepsSound(l, orders[..|orders| - 1]);
    }
  }

  /** The model of class Portfolio: the ledger's three parts are fields updated in place. */
  class Portfolio {
    var holdings: map<string, int>
    var transactions: seq<Transaction>
    var cash: real

    function State(): Ledger
      reads this
    {
      Ledger(cash, holdings, transactions)
    }

    constructor (initialCash: real)
      ensures State() == Ledger(initialCash, map[], [])
    {
      holdings := map[];
      transactions := [];
      cash := initialCash;
    }

    /** buyStock with the stock's price read once, as `price`. */
    method BuyStock(symbol: string, price: real, shares: int) returns (ok: bool)
      modifies this
      ensures ok <==> CanBuy(old(State()), price, shares)
      ensures State() == Buy(old(State()), symbol, price, shares)
      ensures old(Sound(State())) && shares >= 0 ==> Sound(State())
    {
      var cost := price * shares as real;
      if cost > cash {
        return false;
      }
      cash := cash - cost;
      holdings := holdings[symbol := Holding(holdings, symbol) + shares];
      transactions := transactions + [Transaction(symbol, shares, price, BUY)];
      return true;
    }

    /** sellStock with the stock's price read once, as `price`. */
    method SellStock(symbol: string, price: real, shares: int) returns (ok: bool)
      modifies this
      ensures ok <==> CanSell(old(State()), symbol, shares)
      ensures State() == Sell(old(State()), symbol, price, shares)
      ensures old(Sound(State())) && shares >= 0 && price >= 0.0 ==> Sound(State())
    {
      var currentShares := Holding(holdings, symbol);
      if currentShares < shares {
        return false;
      }
      cash := cash + price * shares as real;
      holdings := holdings[symbol := currentShares - shares];
      transactions := transactions + [Transaction(symbol, shares, price, SELL)];
      return true;
    }

    /** A copy of the holdings; Dafny maps are values, so the caller cannot reach the ledger through it. */
    method GetHoldings() returns (h: map<string, int>)
      ensures h == holdings
    {
      h := holdings;
    }

    /** A copy of the log, oldest first. */
    method GetTransactionHistory() returns (log: seq<Transaction>)
      ensures log == transactions
    {
      log := transactions;
    }
  }
}
