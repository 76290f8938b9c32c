/** The worked examples of test/test_domain/test_portfolio.py, stated for every positive
    leverage where the tests pick a few. They start from a ledger holding 1000 of free
    margin and nothing else, which is what `NewAccount(1000.0, leverage)` builds (see its
    contract) and what `Reset` restores. */
module Scenarios {
  import opened Outcomes
  import opened RealAlgebra
  import opened Positions
  import opened Portfolios

  /** A valid ledger with 1000 of free margin, a positive leverage and nothing held. */
  predicate Fresh1000(a: Account) {
    a.Valid() && a.leverage > 0.0 && a.margin == 1000.0 && a.long.amount == 0.0 && a.short.amount == 0.0
  }

  /** `Portfolio(1000.0, leverage)` with a positive leverage is such a ledger. */
  lemma NewAccountIsFresh(leverage: real)
    requires leverage > 0.0
    ensures Fresh1000(NewAccount(1000.0, leverage))
  {
  }

  /** Opening `rate` of a fresh 1000 balance at 100 on either side: `1000 * rate` of the
      margin is spent, and `10 * rate * leverage` is bought at 100. */
  lemma OpenedAt100(a: Account, side: Side, rate: real)
    requires Fresh1000(a) && 0.0 < rate <= 1.0
    ensures a.Opened(side, 100.0, rate) ==
      Ok(a.WithLeg(side, Leg(side, 100.0, 10.0 * rate * a.leverage)).(margin := 1000.0 - 1000.0 * rate))
  {
    FlatAccountBalance(a, 100.0);
    assert a.Balance(100.0) * rate / 100.0 == 10.0 * rate * a.leverage;
    assert a.Opened(side, 100.0, rate).Ok?;
    OpenedFromFlat(a, side, 100.0, rate);
    MulDivCancel(1000.0 * rate, a.leverage);
    assert a.Balance(100.0) * rate / a.leverage == 1000.0 * rate;
    assert a.Opened(side, 100.0, rate).value == a.WithLeg(side, Leg(side, 100.0, a.Balance(100.0) * rate / 100.0)).(margin := a.margin - a.Balance(100.0) * rate / a.leverage);
    assert a.Opened(side, 100.0, rate).value == a.WithLeg(side, Leg(side, 100.0, 10.0 * rate * a.leverage)).(margin := 1000.0 - 1000.0 * rate);
  }
  /** After opening `rate` of a fresh 1000 balance at 100, the balance at `price` is the
      leveraged 1000 plus the gain per unit from 100 on the `10 * rate * leverage` held:
      with rate 0.2 long that is `1000 * leverage - 100 * leverage` at 50 and
      `1000 * leverage + 20 * leverage` at 110, and with rate 0.3 short it is
      `1000 * leverage + 150 * leverage` at 50 and `1000 * leverage - 30 * leverage` at 110. */
  lemma BalanceAt100(a: Account, side: Side, rate: real, price: real)
    requires Fresh1000(a) && 0.0 < rate <= 1.0
    ensures a.Opened(side, 100.0, rate).value.Balance(price) ==
      1000.0 * a.leverage + side.Gain(100.0, price) * (10.0 * rate * a.leverage)
  {
    OpenedAt100(a, side, rate);
  }

  /** Bought long with half of a fresh 1000 balance at 100 and marked at `price`, the
      ledger is worth its leveraged balance of `1000 * leverage`
      plus the move from 100 on the `5 * leverage` held. */
  lemma HalfLongBalance(a: Account, price: real)
    requires Fresh1000(a)
    ensures a.Opened(Long, 100.0, 0.5).value.Balance(price) ==
      1000.0 * a.leverage + (price - 100.0) * (5.0 * a.leverage)
  {
    OpenedAt100(a, Long, 0.5);
  }

  /** That ledger is liquidated at `price` exactly when the loss on the long leg reaches
      the 500 of margin left, that is when the price has fallen by `100 / leverage`. */
  lemma HalfLongLiquidation(a: Account, price: real)
    requires Fresh1000(a)
    ensures a.Opened(Long, 100.0, 0.5).value.Liquidated(price).liquidated <==>
      (100.0 - price) * a.leverage >= 100.0
  {
    OpenedAt100(a, Long, 0.5);
  }

  /** The liquidation table of the tests: leverage, mark price, balance at that mark and
      whether the ledger is liquidated there. */
  predicate LiquidationRow(leverage: real, price: real, balance: real, liquidated: bool) {
    (leverage, price, balance, liquidated) in {
      (1.0, 100.0, 1000.0, false), (1.0, 90.0, 950.0, false), (1.0, 1.0, 505.0, false),
      (2.0, 100.0, 2000.0, false), (2.0, 90.0, 1900.0, false), (2.0, 5.0, 1050.0, true),
      (10.0, 100.0, 10000.0, false), (10.0, 90.0, 9500.0, true), (10.0, 5.0, 5250.0, true)
    }
  }

  /** Every row of the table holds for the half-long ledger. */
  lemma LiquidationTable(a: Account, price: real, balance: real, liquidated: bool)
    requires Fresh1000(a) && LiquidationRow(a.leverage, price, balance, liquidated)
    ensures a.Opened(Long, 100.0, 0.5).value.Balance(price) == balance
    ensures a.Opened(Long, 100.0, 0.5).value.Liquidated(price).liquidated == liquidated
  {
    HalfLongBalance(a, price);
    HalfLongLiquidation(a, price);
  }


  /** Opening at 100 keeps the equity of a fresh 1000 ledger at `1000 * leverage`, the
      leg's cost basis being `rate` of it. */
  lemma EquityAt100(a: Account, side: Side, rate: real)
    requires Fresh1000(a) && 0.0 < rate <= 1.0
    ensures a.Opened(side, 100.0, rate).value.Equity() == 1000.0 * a.leverage
  {
    OpenedAt100(a, side, rate);
    var b := a.WithLeg(side, Leg(side, 100.0, 10.0 * rate * a.leverage)).(margin := 1000.0 - 1000.0 * rate);
    assert b.LegOf(side).Cost() == 1000.0 * rate * a.leverage;
    assert b.LegOf(side.Other()).Cost() == 0.0;
  }

  /** After buying long with `rate` of a fresh 1000 balance at 100, the long position rate
      is `rate`. */
  lemma LongPositionRateAt100(a: Account, rate: real)
    requires Fresh1000(a) && 0.0 < rate <= 1.0
    ensures a.Opened(Long, 100.0, rate).value.Equity() == 1000.0 * a.leverage
    ensures a.Opened(Long, 100.0, rate).value.LongPositionRate() == rate
  {
    EquityAt100(a, Long, rate);
    OpenedAt100(a, Long, rate);
    var b := a.Opened(Long, 100.0, rate).value;
    assert b.long.Cost() == rate * (1000.0 * a.leverage);
    ScaleCancel(b.LongPositionRate(), rate, 1000.0 * a.leverage);
  }

  /** After selling short with `rate` of a fresh 1000 balance at 100, the short position
      rate is `rate`. */
  lemma ShortPositionRateAt100(a: Account, rate: real)
    requires Fresh1000(a) && 0.0 < rate <= 1.0
    ensures a.Opened(Short, 100.0, rate).value.Equity() == 1000.0 * a.leverage
    ensures a.Opened(Short, 100.0, rate).value.ShortPositionRate() == rate
  {
    EquityAt100(a, Short, rate);
    OpenedAt100(a, Short, rate);
    var b := a.Opened(Short, 100.0, rate).value;
    assert b.short.Cost() == rate * (1000.0 * a.leverage);
    ScaleCancel(b.ShortPositionRate(), rate, 1000.0 * a.leverage);
  }

  /** After opening at 100, the free margin is what was not spent: `1 - rate` of the
      leveraged balance. */
  lemma FreeAt100(a: Account, side: Side, rate: real)
    requires Fresh1000(a) && 0.0 < rate <= 1.0
    ensures a.Opened(side, 100.0, rate).value.Free() == 1000.0 * a.leverage * (1.0 - rate)
  {
    OpenedAt100(a, side, rate);
  }

  /** A long leg bought at 100 earns one percent of its cost per unit the price rises. */
  lemma LongPnlRateAt100(a: Account, rate: real, price: real)
    requires Fresh1000(a) && 0.0 < rate <= 1.0
    ensures a.Opened(Long, 100.0, rate).value.long.Cost() == 1000.0 * rate * a.leverage
    ensures a.Opened(Long, 100.0, rate).value.LongPnlRate(price) == (price - 100.0) / 100.0
  {
    OpenedAt100(a, Long, rate);
    var b := a.Opened(Long, 100.0, rate).value;
    assert b.long.Pnl(price) == (price - 100.0) / 100.0 * (1000.0 * rate * a.leverage);
    ScaleCancel(b.LongPnlRate(price), (price - 100.0) / 100.0, 1000.0 * rate * a.leverage);
  }

  /** A short leg sold at 100 earns one percent of its cost per unit the price falls. */
  lemma ShortPnlRateAt100(a: Account, rate: real, price: real)
    requires Fresh1000(a) && 0.0 < rate <= 1.0
    ensures a.Opened(Short, 100.0, rate).value.short.Cost() == 1000.0 * rate * a.leverage
    ensures a.Opened(Short, 100.0, rate).value.ShortPnlRate(price) == (100.0 - price) / 100.0
  {
    OpenedAt100(a, Short, rate);
    var b := a.Opened(Short, 100.0, rate).value;
    assert b.short.Pnl(price) == (100.0 - price) / 100.0 * (1000.0 * rate * a.leverage);
    ScaleCancel(b.ShortPnlRate(price), (100.0 - price) / 100.0, 1000.0 * rate * a.leverage);
  }

  /** Buying long with a fifth of a fresh 1000 balance at 100 and closing all of it at
      110 credits the cost basis back and the gain of `20 * leverage` times the leverage
      again: the free margin ends at `(1000 + 20 * leverage) * leverage`. */
  lemma LongClosedAt110(a: Account)
    requires Fresh1000(a)
    ensures a.Opened(Long, 100.0, 0.2).value.Closed(Long, 110.0, 1.0).Ok?
    ensures a.Opened(Long, 100.0, 0.2).value.Closed(Long, 110.0, 1.0).value.Free() ==
      (1000.0 + 20.0 * a.leverage) * a.leverage
  {
    OpenedAt100(a, Long, 0.2);
    var b := a.Opened(Long, 100.0, 0.2).value;
    ClosedFree(b, Long, 110.0, 1.0);
  }

  /** Selling short with a fifth of a fresh 1000 balance at 100 and closing all of it at
      90 ends with the same free margin, `(1000 + 20 * leverage) * leverage`. */
  lemma ShortClosedAt90(a: Account)
    requires Fresh1000(a)
    ensures a.Opened(Short, 100.0, 0.2).value.Closed(Short, 90.0, 1.0).Ok?
    ensures a.Opened(Short, 100.0, 0.2).value.Closed(Short, 90.0, 1.0).value.Free() ==
      (1000.0 + 20.0 * a.leverage) * a.leverage
  {
    OpenedAt100(a, Short, 0.2);
    var b := a.Opened(Short, 100.0, 0.2).value;
    ClosedFree(b, Short, 90.0, 1.0);
  }

  /** After a full close nothing is held, so the equity is the free margin. */
  lemma ClosedAllFlat(a: Account, side: Side, rate: real, price: real)
    requires Fresh1000(a) && 0.0 < rate <= 1.0
    ensures a.Opened(side, 100.0, rate).value.Closed(side, price, 1.0).Ok?
    ensures a.Opened(side, 100.0, rate).value.Closed(side, price, 1.0).value.Equity() ==
      a.Opened(side, 100.0, rate).value.Closed(side, price, 1.0).value.Free()
  {
    OpenedAt100(a, side, rate);
    var b := a.Opened(side, 100.0, rate).value;
    ClosedKeeps(b, side, price, 1.0);
    var c := b.Closed(side, price, 1.0).value;
    FlatAccountBalance(c, price);
  }

  /** Buying long with a fifth of a fresh 1000 balance at 100 and closing half of it at
      110 realizes half of the `20 * leverage` gain, which equity counts times the
      leverage: it ends at `1000 * leverage + 10 * leverage * leverage`. */
  lemma LongHalfClosedAt110(a: Account)
    requires Fresh1000(a)
    ensures a.Opened(Long, 100.0, 0.2).value.Closed(Long, 110.0, 0.5).Ok?
    ensures a.Opened(Long, 100.0, 0.2).value.Closed(Long, 110.0, 0.5).value.Equity() ==
      1000.0 * a.leverage + 10.0 * a.leverage * a.leverage
  {
    EquityAt100(a, Long, 0.2);
    OpenedAt100(a, Long, 0.2);
    var b := a.Opened(Long, 100.0, 0.2).value;
    ClosedEquity(b, Long, 110.0, 0.5);
  }

  /** A fresh 1000 ledger: free margin, equity and balance at any mark are all
      `1000 * leverage`, and neither leg takes any share of the equity. */
  lemma FreshTotals(a: Account, mark: real)
    requires Fresh1000(a)
    ensures a.Free() == 1000.0 * a.leverage
    ensures a.Equity() == 1000.0 * a.leverage
    ensures a.Balance(mark) == 1000.0 * a.leverage
    ensures a.LongPositionRate() == 0.0 && a.ShortPositionRate() == 0.0
  {
    FlatAccountBalance(a, mark);
  }
}
