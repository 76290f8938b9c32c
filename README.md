# Leveraged position ledger

This project models the trading ledger of `domain/portfolio.py`, the
bookkeeping meant to back the reinforcement-learning environment (the
environment itself does not use it yet). Its parts are:

- a `_Position`, one side of the exposure (long or short). It holds a
  volume-weighted average entry price and an open amount.
- a `Portfolio`, which holds:
  - `_free`, free margin counted without leverage;
  - a fixed leverage;
  - one long and one short position;
  - the initial balance that `reset` restores.

Opening spends a fraction of the balance marked at a price on one side. The
units bought are averaged into the position, and the margin pays the cost
divided by the leverage. Closing removes a fraction of a position at an exit
price and credits the margin with two things: the cost basis divided by the
leverage, and the realized P&L. Liquidation wipes the ledger once the combined
unrealized loss reaches the free margin.

Each part has a value and a mutable object, and the object is proved against the value:

- `Positions.Leg` and `Portfolios.Account` are datatypes. They hold the state
  of a position and of a portfolio.
- Their functions (`Added`, `Removed`, `Opened`, `Closed`, `Liquidated`,
  `Reset`, `Free`, `Equity`, `Balance` and the rates) say what each operation
  of the source computes. The lemmas about them prove the bookkeeping
  identities.
- `Positions.Position` and `Ledger.Portfolio` are classes whose methods update
  their fields in place, as the source does. Every method's postcondition
  states the new state as the value function applied to the old state. On a
  failure, the postcondition says that nothing has changed.
- `Scenarios` restates the worked examples of
  `test/test_domain/test_portfolio.py` as lemmas. They hold for every positive
  leverage, not only the few the tests pick.

Prices, amounts and balances are `real`, so the identities are exact. Python
exceptions become error values, and each is raised before any state changes:

| exception in the source | error value here |
|---|---|
| `ValueError` for a rate above 1 | `InvalidRate` |
| `ValueError` for removing more than is held | `InsufficientPosition` |
| `ZeroDivisionError` for a zero price in `_add`, or for an add that would leave a position at amount zero | `DivisionByZero` |

One behaviour of the source is kept as written. The realized P&L is added to the
unleveraged `_free`, and everything read from `_free` is multiplied by the
leverage. So a close moves equity by the P&L times the leverage, and it moves
the balance at the exit price by the P&L times (leverage - 1). The tests
expect this: after a full close the free margin is `(1000 + 20 * leverage) * leverage`.

## Model

| member | source | states |
|---|---|---|
| Positions.Side.Sign | domain/portfolio.py:6-9 | the side multiplier is +1 for long and -1 for short |
| Positions.Side.Gain | domain/portfolio.py:34-35 | the per-unit move `(price - self.price) * side` of `pnl`, written by cases; no contract of its own, `GainIsSignedMove` proves it equals the source's product with the sign |
| Positions.GainIsSignedMove | domain/portfolio.py:34-35 | the per-unit gain equals the source's `(exit - entry) * side` |
| Positions.Leg.Cost | domain/portfolio.py:30-32 | `cost`, average price times amount; no contract of its own, its meaning is given by `CostNonNegative`, `RemovedSplitsLeg` and `BoughtCost` |
| Positions.Leg.Pnl | domain/portfolio.py:34-35 | `pnl`, the gain per unit times the amount; no contract of its own, its meaning is given by `GainIsSignedMove`, `PnlAtEntry` and `RemovedSplitsLeg` |
| Positions.CostNonNegative | domain/portfolio.py:30-32 | a well-formed position never has a negative cost basis |
| Positions.PnlAtEntry | domain/portfolio.py:34-35 | marked at its own average price, a position has no unrealized P&L |
| Positions.Leg.PnlRate | domain/portfolio.py:37-38 | `pnl_rate` times the cost basis is the unrealized P&L, when the cost basis is non-zero |
| Positions.Leg.Added | domain/portfolio.py:11-16 | `add` keeps the side, grows the amount by the fill, and grows the cost basis by exactly the fill's cost `price * amount` |
| Positions.Leg.Removed | domain/portfolio.py:18-20 | `remove` fails with `InsufficientPosition` exactly when more than the amount held is asked for |
| Positions.Empty | domain/portfolio.py:6-9 | a fresh position holds nothing and is well formed |
| Positions.EmptyHasNoCost | domain/portfolio.py:30-32 | a fresh position has no cost basis |
| Positions.EmptyHasNoPnl | domain/portfolio.py:34-35 | a fresh position has no unrealized P&L at any price |
| Positions.AddedPreservesWellFormed | domain/portfolio.py:11-16 | a non-negative fill at a positive price keeps the amount non-negative and the average price positive exactly when something is held |
| Positions.AddedPriceBetween | domain/portfolio.py:12 | the new average price lies between the old average and the fill price |
| Positions.AddedTwiceIsWeightedMean | domain/portfolio.py:12-13 | two fills into an empty position average to the amount-weighted mean of their prices |
| Positions.AddedToFlat | domain/portfolio.py:12-13 | the first fill into an empty position sets the average price to the fill price |
| Positions.RemovedUpdatesLeg | domain/portfolio.py:18-28 | when enough is held, the amount drops by the quantity removed, the cost closed is the old average times the quantity, the P&L is `(exit - price) * qty * side`, and the price resets to 0 exactly when nothing is left |
| Positions.RemovedSplitsLeg | domain/portfolio.py:21-32 | the remaining cost basis plus the cost closed is the old cost basis; the remaining P&L plus the realized P&L is the old P&L at the exit price |
| Positions.RemovedFraction | domain/portfolio.py:84-85 | removing the fraction `rate` of the amount closes that fraction of the cost basis and realizes that fraction of the P&L |
| Positions.RemovedPreservesWellFormed | domain/portfolio.py:18-28 | removing between zero and the amount held keeps a well-formed position well formed |
| Positions.RemovedAllEmpties | domain/portfolio.py:21-28 | removing the whole amount leaves a fresh position and realizes the whole cost basis and P&L |
| Positions.RemovedAllAtEntry | domain/portfolio.py:21-28 | removing the whole amount at the entry price realizes no P&L |
| Positions.AddThenRemoveRoundTrip | domain/portfolio.py:11-28 | adding to an empty position and removing the same amount at the same price gives back the empty position, the cost paid and zero P&L |
| Positions.Position.constructor | domain/portfolio.py:6-9 | a new position object holds the empty position of its side |
| Positions.Position.Add | domain/portfolio.py:11-16 | updates the fields in place to `Added` of the old state and returns the fill's cost, by which the cost basis grew |
| Positions.Position.Remove | domain/portfolio.py:18-28 | updates the fields in place to the rest of `Removed` and returns its fill; on `InsufficientPosition` nothing changes |
| Portfolios.Abs | domain/portfolio.py:112 | the absolute value is non-negative and equals `x` or `-x` |
| Portfolios.Account.LegOf | domain/portfolio.py:60-64 | the position chosen for a side is the account's long or short position, and on a well-formed account it lies on that side |
| Portfolios.Account.Free | domain/portfolio.py:56-58 | `free`, `_free` times the leverage; no contract of its own, its meaning is given by `FlatAccountBalance`, `BoughtFree` and `ClosedFree` |
| Portfolios.Account.Equity | domain/portfolio.py:89-91 | `equity`, the leveraged free margin plus both cost bases; no contract of its own, `OpenedConservesEquity` and `ClosedEquity` prove how opening and closing move it |
| Portfolios.Account.Balance | domain/portfolio.py:93-94 | `balance`, equity plus both unrealized P&Ls; no contract of its own, `BalanceAtEntry`, `FlatAccountBalance` and `ClosedBalance` relate it to equity |
| Portfolios.Account.LongPositionRate | domain/portfolio.py:96-98 | the long rate times equity is the long cost basis |
| Portfolios.Account.ShortPositionRate | domain/portfolio.py:100-102 | the short rate times equity is the short cost basis |
| Portfolios.Account.LongPnlRate | domain/portfolio.py:104-105 | the long P&L rate times the long cost basis is the long P&L |
| Portfolios.Account.ShortPnlRate | domain/portfolio.py:107-108 | the short P&L rate times the short cost basis is the short P&L |
| Portfolios.Account.Reset | domain/portfolio.py:51-54 | the margin returns to the initial balance, both positions are fresh, and the leverage and initial balance are kept |
| Portfolios.Account.Opened | domain/portfolio.py:66-72 | a rate above 1 gives `InvalidRate`; the open fails exactly on that, a zero price, or an add that leaves amount zero; on success the account stays valid, the other position is untouched, and the position grows by balance times rate over price |
| Portfolios.Account.Closed | domain/portfolio.py:80-87 | a rate above 1 gives `InvalidRate`; the close succeeds exactly when the rate is at most 1 and the fraction asked for is at most the amount held; otherwise it gives `InsufficientPosition` |
| Portfolios.Account.Liquidated | domain/portfolio.py:110-117 | liquidates exactly when the combined P&L is a loss at least as large as the free margin; a liquidation zeroes the margin and empties both positions, otherwise nothing changes |
| Portfolios.NewAccount | domain/portfolio.py:42-49 | a new portfolio is well formed, has its initial balance as margin, and holds nothing |
| Portfolios.Account.Bought | domain/portfolio.py:71-72 | the state after `position.add` and `_free -= cost / leverage`: still valid (leverage non-zero, each position on its side), same leverage and initial balance, the position grows by the amount bought and the other position is untouched |
| Portfolios.BoughtFree | domain/portfolio.py:71-72 | buying takes the fill's cost off the leveraged free margin |
| Portfolios.BoughtCost | domain/portfolio.py:71 | buying adds the fill's cost to the position's cost basis |
| Portfolios.BoughtEquity | domain/portfolio.py:66-91 | buying leaves equity unchanged |
| Portfolios.OpenedConservesEquity | domain/portfolio.py:66-91 | a successful open leaves equity unchanged; the free margin falls, and the position's cost basis rises, by balance times rate |
| Portfolios.Account.Settled | domain/portfolio.py:85-87 | the state after `position.remove` and the two credits to `_free`: same leverage and initial balance, the position is what the removal left and the other position is untouched |
| Portfolios.BoughtPreservesWellFormed | domain/portfolio.py:71-72 | buying a non-negative amount at a positive price keeps every position's amount non-negative and its average price zero exactly when it is empty |
| Portfolios.OpenedPreservesWellFormed | domain/portfolio.py:66-72 | an open at a positive price, with a non-negative rate of a non-negative balance, keeps every position's amount non-negative and its average price zero exactly when it is empty |
| Portfolios.SettledKeeps | domain/portfolio.py:85-87 | settling a removal keeps the leverage, the initial balance and the other position |
| Portfolios.SettledCreditsFree | domain/portfolio.py:86-87 | settling credits the leveraged free margin with the cost closed plus the P&L times the leverage |
| Portfolios.SettledEquity | domain/portfolio.py:86-91 | settling a split of the position moves equity by the P&L times the leverage |
| Portfolios.SettledBalance | domain/portfolio.py:86-94 | settling a split of the position moves the balance by the P&L times (leverage - 1) |
| Portfolios.RemovalEquity | domain/portfolio.py:85-87 | removing any amount held moves equity by the realized P&L times the leverage |
| Portfolios.RemovalBalance | domain/portfolio.py:85-87 | removing any amount held moves the balance at the exit price by the realized P&L times (leverage - 1) |
| Portfolios.FractionEquity | domain/portfolio.py:84-87 | settling the removal of `rate` of a position moves equity by `rate` of its P&L times the leverage |
| Portfolios.ClosedKeeps | domain/portfolio.py:80-87 | a close keeps the account valid and the other position untouched, shrinks the position by `rate` of its amount, and a position left at amount zero, as a rate of 1 always leaves it, is a fresh one with price 0 |
| Portfolios.ClosedPreservesWellFormed | domain/portfolio.py:80-87 | a close at any rate keeps every position's amount non-negative and its average price zero exactly when it is empty |
| Portfolios.ClosedFree | domain/portfolio.py:84-87 | closing credits the free margin with `rate` of the cost basis plus `rate` of the P&L times the leverage |
| Portfolios.ClosedEquity | domain/portfolio.py:84-91 | closing moves equity by `rate` of the P&L times the leverage |
| Portfolios.FractionBalance | domain/portfolio.py:84-94 | settling the removal of `rate` of a position moves the balance at the exit price by `rate` of its P&L times (leverage - 1) |
| Portfolios.ClosedBalance | domain/portfolio.py:84-94 | closing moves the balance at the exit price by `rate` of the P&L times (leverage - 1) |
| Portfolios.ClosedRealizesPnl | domain/portfolio.py:80-94 | the three effects of a close on free margin, equity and balance together |
| Portfolios.OpenedFromFlat | domain/portfolio.py:66-72 | opening an empty position buys at exactly the fill price and spends balance times rate over leverage |
| Portfolios.ClosedAllAtEntry | domain/portfolio.py:84-87 | closing all of a position at its entry price empties it and credits its cost over the leverage |
| Portfolios.OpenThenCloseAll | domain/portfolio.py:66-87 | opening an empty position and closing all of it at the same price empties it and gives the margin back |
| Portfolios.OpenThenCloseRoundTrip | domain/portfolio.py:66-87 | on a well-formed account, opening an empty position and closing all of it at the same price gives back the account exactly |
| Portfolios.OpenedNothing | domain/portfolio.py:66-72 | opening with rate 0 changes nothing, except that a zero price or an empty position fails with `DivisionByZero` |
| Portfolios.ClosedNothing | domain/portfolio.py:80-87 | closing with rate 0 changes nothing on a well-formed account |
| Portfolios.FlatAccountBalance | domain/portfolio.py:56-94 | with both positions empty, the balance at any price is the equity, which is the free margin, `_free` times the leverage |
| Portfolios.BalanceAtEntry | domain/portfolio.py:89-94 | marked at both positions' entry prices, the balance is the equity |
| Portfolios.LiquidatedFree | domain/portfolio.py:110-117 | after a liquidation the free margin is 0 |
| Portfolios.LiquidatedEquity | domain/portfolio.py:110-117 | after a liquidation the equity is 0 |
| Portfolios.LiquidatedBalance | domain/portfolio.py:110-117 | after a liquidation the balance at any price is 0 |
| Portfolios.LiquidationWipesAccount | domain/portfolio.py:110-117 | after a liquidation free margin, equity and balance are all 0 |
| Ledger.Portfolio.constructor | domain/portfolio.py:42-49 | the new object holds `NewAccount(initialBalance, leverage)` |
| Ledger.Portfolio.Reset | domain/portfolio.py:51-54 | the fields now hold `Reset` of the old state, with two fresh position objects |
| Ledger.Portfolio.PositionOf | domain/portfolio.py:60-64 | the position object chosen is the long one or the short one, and while those hold their own sides it is the one on the side asked for |
| Ledger.Portfolio.Add | domain/portfolio.py:66-72 | on success the state is `Opened` of the old state and the result is `Pass`; on failure the result carries `Opened`'s error and nothing changed |
| Ledger.Portfolio.Buy | domain/portfolio.py:71-72 | after `position.add` and the margin update, the state is `Bought` of the old state |
| Ledger.Portfolio.AddLong | domain/portfolio.py:60-61 | `Add` on the long side |
| Ledger.Portfolio.AddShort | domain/portfolio.py:63-64 | `Add` on the short side |
| Ledger.Portfolio.Remove | domain/portfolio.py:80-87 | on success the state is `Closed` of the old state and the result is `Pass`; on failure the result carries `Closed`'s error and nothing changed |
| Ledger.Portfolio.Sell | domain/portfolio.py:85-87 | `position.remove` plus the two margin credits give `Settled` of the old state; a refused removal changes nothing |
| Ledger.Portfolio.RemoveLong | domain/portfolio.py:74-75 | `Remove` on the long side |
| Ledger.Portfolio.RemoveShort | domain/portfolio.py:77-78 | `Remove` on the short side |
| Ledger.Portfolio.Liquidate | domain/portfolio.py:110-117 | returns what `Liquidated` of the old state decides and leaves its resulting state, with fresh position objects on a liquidation and the same ones otherwise |
| Scenarios.NewAccountIsFresh | test/test_domain/test_portfolio.py:7-9 | a new portfolio of 1000 at a positive leverage is the fresh ledger the scenarios start from |
| Scenarios.OpenedAt100 | test/test_domain/test_portfolio.py:20-29 | opening `rate` of a fresh 1000 at 100 spends `1000 * rate` of margin and buys `10 * rate * leverage` at 100 |
| Scenarios.BalanceAt100 | test/test_domain/test_portfolio.py:30-37 | after that open, the balance at `price` is `1000 * leverage` plus the gain from 100 on what was bought |
| Scenarios.HalfLongBalance | test/test_domain/test_portfolio.py:161-165 | half of a fresh 1000 bought long at 100 has balance `1000L + (price - 100) * 5L` |
| Scenarios.HalfLongLiquidation | test/test_domain/test_portfolio.py:166-173 | that ledger is liquidated exactly when `(100 - price) * leverage >= 100` |
| Scenarios.LiquidationTable | test/test_domain/test_portfolio.py:144-173 | every row of the liquidation table: the balance at the mark and whether it liquidates |
| Scenarios.EquityAt100 | test/test_domain/test_portfolio.py:24-29 | opening at 100 keeps the equity at `1000 * leverage` |
| Scenarios.LongPositionRateAt100 | test/test_domain/test_portfolio.py:24-26 | the long position rate after opening long with `rate` is `rate` |
| Scenarios.ShortPositionRateAt100 | test/test_domain/test_portfolio.py:43-46 | the short position rate after opening short with `rate` is `rate` |
| Scenarios.FreeAt100 | test/test_domain/test_portfolio.py:24-28 | the free margin after opening is `1000 * leverage * (1 - rate)` |
| Scenarios.LongPnlRateAt100 | test/test_domain/test_portfolio.py:31-36 | the long P&L rate is `(price - 100) / 100` |
| Scenarios.ShortPnlRateAt100 | test/test_domain/test_portfolio.py:50-55 | the short P&L rate is `(100 - price) / 100` |
| Scenarios.LongClosedAt110 | test/test_domain/test_portfolio.py:58-65 | a fifth bought long at 100 and closed at 110 leaves free margin `(1000 + 20L) * L` |
| Scenarios.ShortClosedAt90 | test/test_domain/test_portfolio.py:69-76 | a fifth sold short at 100 and closed at 90 leaves free margin `(1000 + 20L) * L` |
| Scenarios.ClosedAllFlat | test/test_domain/test_portfolio.py:62-66 | after a full close the equity equals the free margin |
| Scenarios.LongHalfClosedAt110 | test/test_domain/test_portfolio.py:89-94 | a fifth bought long at 100, half closed at 110, has equity `1000L + 10L * L` |
| Scenarios.FreshTotals | test/test_domain/test_portfolio.py:11-18 | a fresh ledger has free margin, equity and balance `1000 * leverage` and no position rate |

## Left out

- The default `leverage=1.0` of `Portfolio.__init__` (domain/portfolio.py:43): `Portfolios.NewAccount` and `Ledger.Portfolio.constructor` take the leverage explicitly.
- Floating-point rounding: every quantity is a `real`. The identities are exact here, while the source's floats only approximate them.
- The later steps of the partial-close tests (test/test_domain/test_portfolio.py:100-111 and 113-142) are not restated. Their `pytest.approx` tolerances absorb expected values the test rounded by hand: computed exactly, the long test at leverage 1 reaches equity 1022.136... and then 1041.409... where 1022.1 and 1041.0 are expected, and its first long position rate is 100/1010 = 0.0990... where 0.09 is expected. The step at test/test_domain/test_portfolio.py:97-99, equity unchanged after re-opening at 110, is an instance of `Portfolios.OpenedConservesEquity`. The first exact equity of the long test is `Scenarios.LongHalfClosedAt110`.
- Portfolios.NewAccount: a zero leverage is excluded. The source accepts it, but `_add` and `_remove` then raise a `ZeroDivisionError` after the position was already changed. A failure half-way through is not modelled.
- Positions.Position.Add: requires that the new amount is non-zero, where the source raises `ZeroDivisionError`. `Ledger.Portfolio.Add` checks this first and reports `DivisionByZero` without changing anything, which is what the source's state is after that exception.
- Positions.Leg.PnlRate, Portfolios.Account.LongPositionRate, Portfolios.Account.ShortPositionRate, Portfolios.Account.LongPnlRate, Portfolios.Account.ShortPnlRate: require a non-zero denominator. The source raises `ZeroDivisionError` there, and that exception is not modelled.
- Negative rates are accepted, as in the source. The well-formedness lemmas (`AddedPreservesWellFormed`, `RemovedPreservesWellFormed`) are stated for non-negative fills only.
- The read-only properties of `Portfolio` and `_Position` (`free`, `equity`, `balance`, the rates, `cost`, `pnl`, `pnl_rate`) are not repeated on the classes. They are the `Account` and `Leg` functions applied to `State()`.
- Scenarios: the test examples are stated for any account with 1000 of margin, a positive leverage and nothing held, which `Scenarios.NewAccountIsFresh` shows `Portfolio(1000.0, leverage)` to be.
- domain/dataset.py (CSV loading and moving averages), domain/env.py (the gymnasium environment) and domain/main.py (training wiring) are not part of this model. They are I/O and calls into foreign libraries.
