# Stock trading simulator — a verified Dafny model

This project models the core of a small Java stock-trading simulator. It has three parts:

- **Stocks** (`stock.dfy`, after `Stock.java`): one traded instrument.
  - It has a symbol, a volatility, a current and a previous price, and a day range (high and low).
  - `updatePrice` draws a random relative change of `(r - 0.5) * volatility`.
  - It floors the new price at 0.01 and widens the day range to take the new price in.
  - The Java `Math.random()` value `r` is the parameter `draw`, in [0, 1).
  - The update is modelled twice: as the class method `Stock.UpdatePrice`, and as the value function `Advance` that specifies it.
- **Portfolios** (`portfolio.dfy`, after `Portfolio.java` and `Transaction.java`): one trader's ledger.
  - It holds cash, a symbol -> share-count map and an append-only transaction log.
  - `buyStock` refuses a purchase whose cost exceeds the cash.
  - `sellStock` refuses a sale of more shares than are held; a missing symbol counts as zero shares.
  - On success, each updates cash and holdings and appends one `Transaction` record (symbol, shares, price, BUY/SELL).
  - The class `Portfolio` updates its fields in place. The value functions `Buy` and `Sell` specify it.
  - `Execute` and `Run` are a corrected front end that also rejects non-positive quantities; see Findings.
- **Simulator** (`simulator.dfy`, after `MarketSimulator.java`): the market feed.
  - It seeds four stocks: AAPL, GOOGL, MSFT and AMZN.
  - It registers listeners and looks a stock up by symbol (first match or null).
  - Its `run` loop repeats sweeps. A sweep advances each stock once, in list order, and notifies every listener, in registration order, right after each advance.
  - The loop stops once `stop` clears the `running` flag.
  - Listener callbacks are recorded as a trace of `Notification(listener, quote)` entries. The quote is the stock's state when the callback happens.

Java `double` is modelled as Dafny `real`, so arithmetic is exact. Java `int` share counts are unbounded `int`.

## Model

| member | source | states |
|---|---|---|
| Stocks.AdvanceKeepsRange | Stock.java:24-30 | An update keeps symbol and volatility. The old price moves into previousPrice. The new price is at least 0.01. The day range still brackets the price, the high never falls and the low never rises, and each bound either stays or becomes the new price. |
| Stocks.ChangeWithinHalfVolatility | Stock.java:26 | For a draw in [0, 1), the relative change lies in [-volatility/2, volatility/2), and is strictly below volatility/2 when volatility is positive. |
| Stocks.AdvanceStaysInBand | Stock.java:26-27 | From a positive price, one update lands between price * (1 - volatility/2) and max(0.01, price * (1 + volatility/2)). |
| Stocks.AdvanceAllKeepsRange | Stock.java:24-30 | Over any series of updates, symbol and volatility stay fixed, dayHigh never decreases and dayLow never increases. After at least one update, the price is at least 0.01 and inside the day range. |
| Stocks.AdvanceAllRangeCoversPath | Stock.java:28-29 | After a series of updates, the day high is at least every price reached along the way, and the day low is at most each of them. |
| Stocks.PreviousPriceIsLastPrice | Stock.java:25 | After at least one update, previousPrice is the price held just before the last update. |
| Stocks.Stock.constructor | Stock.java:12-19 | price, previousPrice, dayHigh and dayLow all start at initialPrice, so the range invariant holds from the start. |
| Stocks.Stock.UpdatePrice | Stock.java:24-30 | The new state is Advance of the old state with this draw. The range invariant holds, the price is at least 0.01, previousPrice is the old price, and the high and low only widen. |
| Portfolios.Buy | Portfolio.java:15-24 | If the cost exceeds the cash, the ledger is unchanged. Otherwise cash falls by exactly price * shares and stays non-negative. The symbol's holding (absent = 0) rises by shares and every other holding is unchanged. Exactly one BUY record is appended. A sound ledger stays sound for shares >= 0. |
| Portfolios.Sell | Portfolio.java:26-36 | If fewer shares are held than asked (absent = 0), the ledger is unchanged. Otherwise cash rises by exactly price * shares, the holding falls by shares and is never negative, and other holdings are unchanged. Exactly one SELL record is appended. A sound ledger stays sound for shares >= 0 and price >= 0. |
| Portfolios.BuyThenSellRestores | Portfolio.java:15-36 | From a non-negative holding, a buy that goes through, followed by a sell of the same symbol, shares and price, always succeeds. It restores the cash exactly and every symbol's holding under the absent-means-zero reading, and adds two log records. |
| Portfolios.SessionExample | Portfolio.java:15-36 | Starting from 10000 cash: buying 10 AAPL at 150 leaves 8500 cash and 10 shares. Then selling 4 at 155 leaves 9120 cash and 6 shares, and the log holds the two records in order. |
| Portfolios.NegativeSharesBreakLedger | Portfolio.java:15-36 | As written, an empty ledger accepts a buy of -10 shares, which yields a -10 holding and 1500 cash. It also accepts a sell of -10 shares, which yields -1500 cash. Both leave the ledger unsound. |
| Portfolios.Execute | Portfolio.java:15-36 | The corrected trade. It rejects non-positive shares or price, and otherwise behaves as Buy or Sell. Each rejection reason holds exactly when its condition does, in both directions, and a committed trade keeps a sound ledger sound. |
| Portfolios.RunLogAppendsCommitted | Portfolio.java:15-36 | After a series of orders, the log is the old log followed by exactly the records (symbol, shares, price, direction) of the orders that committed, in commit order. Refused orders leave no record, so the log grows by the number of committed orders. |
| Portfolios.RunConservesCashAndShares | Portfolio.java:15-36 | Final cash is the initial cash minus committed buy costs plus committed sell proceeds. Each symbol's holding moves by exactly its committed buys minus its committed sells. |
| Portfolios.RunKeepsSound | Portfolio.java:15-36 | With quantities validated, no series of orders drives the cash or any holding negative. |
| Portfolios.Portfolio.constructor | Portfolio.java:6-13 | The ledger starts with the given cash, no holdings and an empty log. |
| Portfolios.Portfolio.BuyStock | Portfolio.java:15-24 | The method returns true exactly when the buy check passes on the old ledger (price * shares does not exceed the cash). The new ledger is Buy of the old one, and soundness is kept for shares >= 0. |
| Portfolios.Portfolio.SellStock | Portfolio.java:26-36 | The method returns true exactly when the sell check passes on the old ledger (the holding, absent = 0, is at least shares). The new ledger is Sell of the old one, and soundness is kept for shares >= 0 and price >= 0. |
| Portfolios.Portfolio.GetHoldings | Portfolio.java:42-44 | Returns a value equal to the current holdings. The value is a copy, so the ledger cannot be changed through it. |
| Portfolios.Portfolio.GetTransactionHistory | Portfolio.java:46-48 | Returns a value copy of the log, oldest record first. |
| Simulator.SweepTraceLength | MarketSimulator.java:31-34 | A sweep over n stocks makes n * listeners callbacks. |
| Simulator.SweepTraceAt | MarketSimulator.java:31-48 | The sweep trace is stocks x listeners in row-major order: entry i * listeners + j hands stock i's updated state to listener j. |
| Simulator.AdvanceEachKeepsSymbolsAndRange | MarketSimulator.java:31-34 | A sweep keeps the list's length and symbol order. Every stock stays in its range and above the floor, and no day range narrows. |
| Simulator.SweepsTraceLength | MarketSimulator.java:29-42 | n sweeps make n * stocks * listeners callbacks. |
| Simulator.SweepsKeepSymbolsAndRange | MarketSimulator.java:29-42 | Any number of sweeps keeps the symbol order and each stock's range invariant, and no day range ever narrows. |
| Simulator.FirstIndexOf | MarketSimulator.java:21-26 | The index of the first stock with the symbol, or the list length when none has it: every earlier stock has a different symbol. |
| Simulator.SeedsDistinct | MarketSimulator.java:10-15 | The four seeded stocks have pairwise distinct symbols, positive prices and valid ranges. |
| Simulator.MarketSimulator.constructor | MarketSimulator.java:5-15 | The simulator starts running with no listeners. Its stocks are fresh, distinct objects whose states are AAPL 150/0.02, GOOGL 2800/0.015, MSFT 280/0.018 and AMZN 3300/0.025, in that order. |
| Simulator.MarketSimulator.AddListener | MarketSimulator.java:17-19 | The listener is appended after all earlier ones, and the running flag is unchanged. |
| Simulator.MarketSimulator.GetStock | MarketSimulator.java:21-26 | Returns null exactly when no stock has the symbol. Otherwise it returns a stock with that symbol, at an index before which no stock has it. |
| Simulator.MarketSimulator.NotifyListeners | MarketSimulator.java:44-48 | Every listener, in registration order, is handed the stock's current state. |
| Simulator.MarketSimulator.Sweep | MarketSimulator.java:31-34 | Each stock is advanced once with its own draw, in list order. The stocks stay distinct and in range. The callbacks are exactly the row-major stocks x listeners trace of the updated states. Listeners and the running flag are unchanged. |
| Simulator.MarketSimulator.Stop | MarketSimulator.java:50-52 | running becomes false, and the stocks and listeners are untouched; a second call changes nothing more. |
| Simulator.MarketSimulator.Run | MarketSimulator.java:29-42 | If the simulator was stopped, no sweep starts. Otherwise sweeps run until the one during which stop arrives has completed, or until the draws run out. The final quotes are those sweeps applied in order, the trace is their traces concatenated, and running stays true only if stop never arrived. |

## Left out

- Threads, `synchronized`, `volatile`, the 2-second `Thread.sleep` between sweeps and the interrupt handling are not modelled. Every operation is one sequential atomic step.
- `stop()` called from another thread is modelled by `Run`'s parameter `stopDuring`: the index of the sweep during which the call arrives.
- An interrupt ends the loop but leaves `running` true. That matches the model's ending when the draws run out, not `Stop`, and it is not modelled separately.
- Simulator.MarketSimulator.Run: the Java loop runs until stopped. The model is fed a finite list of per-sweep draws and also ends when that list runs out.
- `Math.random()` is a parameter, `draw` in [0, 1), per stock per sweep.
- IEEE `double` rounding is not modelled: prices and cash are exact reals. The exact cash round trip in `BuyThenSellRestores` holds only in exact arithmetic.
- Portfolios.Buy: share counts are unbounded integers, so the 32-bit overflow of `Integer::sum` in the holdings merge is not modelled.
- Portfolios.Sell: share counts are unbounded integers, so a 32-bit overflow of `currentShares - shares` is not modelled.
- `buyStock` and `sellStock` read `stock.getPrice()` twice, which can differ under a concurrent tick. The model reads the price once, as the `price` parameter. The `Stock` argument is reduced to its symbol and that price.
- The `Transaction` timestamp (`System.currentTimeMillis()`) and `toString` formatting are not modelled; a transaction is the value `Transaction(symbol, shares, price, kind)`.
- `getCash` is a plain field read with no logic; the `cash` field is read directly.
- The `Stock` getters are plain field reads. The model's `Stock.Snapshot()` returns all fields at once as a `Quote`.
- What listeners do in `onPriceUpdate` is not modelled. A `MarketListener` is an opaque `Listener` value, and a callback is a trace entry.
- The Java listener receives the `Stock` object and could read it later. The trace records the stock's state at callback time.
- The simulator's stock list is filled by the constructor and never changed afterwards, so it is a `const` field.
- TradingTerminal.java (console commands, colour output, update throttling) is not part of this model.

## Findings

| source | as written | input that shows it | evidently intended | confidence | as-written member | corrected member |
|---|---|---|---|---|---|---|
| Portfolio.java:15-36 | `buyStock` and `sellStock` check only cash and held shares; a zero or negative share count passes both checks | From an empty ledger with 0 cash: buy -10 AAPL at 150 gives 1500 cash and -10 shares; sell -10 AAPL at 150 gives -1500 cash | Reject non-positive share counts (and prices), so cash and holdings never go negative | not executed | Portfolios.NegativeSharesBreakLedger | Portfolios.Execute |

`Portfolios.RunKeepsSound` proves the intended property about the corrected `Execute`: a sound ledger stays sound under any series of orders. `Portfolios.Portfolio.BuyStock` and `SellStock` model the methods as written.
