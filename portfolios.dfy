/** The leveraged ledger (`Portfolio` in domain/portfolio.py): unleveraged free margin,
    a fixed leverage, one long and one short leg, and the initial balance that `reset`
    restores. */
module Portfolios {
  // Several lemmas below state their hypotheses as the left side of an `==>` in the
  // `ensures` rather than as a `requires`: a single implication keeps each proof
  // obligation to one fact, which the solver discharges far more cheaply here.

  import opened Outcomes
  import opened RealAlgebra
  import opened Positions

  /** Absolute value, as the source's `abs`. */
  function Abs(x: real): (r: real)
    ensures r >= 0.0 && (r == x || r == -x)
  {
    if x < 0.0 then -x else x
  }

  /** What `liquidate` reports, together with the account it leaves behind. */
  datatype Liquidation = Liquidation(liquidated: bool, after: Account)

  /** The state of a `Portfolio`. `margin` is the source's `_free`: free margin counted
      without leverage. */
  datatype Account = Account(initialBalance: real, leverage: real, margin: real, long: Leg, short: Leg) {

    /** What every account the ledger builds satisfies: a leverage the ledger can divide
        by, and each leg on its own side. */
    predicate Valid() {
      leverage != 0.0 && long.side == Long && short.side == Short
    }

    /** `Valid`, and both legs well formed. */
    predicate WellFormed() {
      Valid() && long.WellFormed() && short.WellFormed()
    }

    /** The leg held on `side`. */
    function LegOf(side: Side): (l: Leg)
      ensures l == long || l == short
      ensures Valid() ==> l.side == side
    {
      if side == Long then long else short
    }

    /** This account with the leg on `side` replaced. */
    function WithLeg(side: Side, leg: Leg): Account {
      if side == Long then this.(long := leg) else this.(short := leg)
    }

    /** `Portfolio.free`: free margin scaled by leverage, the buying power left. */
    function Free(): real {
      margin * leverage
    }

    /** `Portfolio.equity`: leveraged free margin plus the cost basis of both legs. */
    function Equity(): real {
      Free() + long.Cost() + short.Cost()
    }

    /** `Portfolio.balance`: equity marked to market at `mark`. */
    function Balance(mark: real): real {
      Equity() + long.Pnl(mark) + short.Pnl(mark)
    }

    /** `Portfolio.long_position_rate`: the long leg's share of equity. */
    function LongPositionRate(): (r: real)
      requires Equity() != 0.0
      ensures r * Equity() == long.Cost()
    {
      long.Cost() / Equity()
    }

    /** `Portfolio.short_position_rate`: the short leg's share of equity. */
    function ShortPositionRate(): (r: real)
      requires Equity() != 0.0
      ensures r * Equity() == short.Cost()
    {
      short.Cost() / Equity()
    }

    /** `Portfolio.long_pnl_rate`: unrealized P&L of the long leg per unit of its cost. */
    function LongPnlRate(mark: real): (r: real)
      requires long.Cost() != 0.0
      ensures r * long.Cost() == long.Pnl(mark)
    {
      long.PnlRate(mark)
    }

    /** `Portfolio.short_pnl_rate`: unrealized P&L of the short leg per unit of its cost. */
    function ShortPnlRate(mark: real): (r: real)
      requires short.Cost() != 0.0
      ensures r * short.Cost() == short.Pnl(mark)
    {
      short.PnlRate(mark)
    }

    /** `Portfolio.reset`: free margin back to the initial balance, both legs fresh. */
    function Reset(): (a: Account)
      ensures a.initialBalance == initialBalance && a.leverage == leverage
      ensures a.margin == initialBalance
      ensures a.long == Empty(Long) && a.short == Empty(Short)
      ensures Valid() ==> a.WellFormed()
    {
      Account(initialBalance, leverage, initialBalance, Empty(Long), Empty(Short))
    }

    /** `Portfolio._add`: spend `rate` of the balance marked at `price` on the leg on
        `side`. A rate above 1 is refused before anything changes; a zero price, or a
        fill that would leave the leg at amount zero, raises a division by zero, also
        before anything changes. */
    function Opened(side: Side, price: real, rate: real): (r: Result<Account>)
      requires Valid()
      ensures rate > 1.0 ==> r == Err(InvalidRate)
      ensures r.Err? <==>
        rate > 1.0 || price == 0.0 || LegOf(side).amount + Balance(price) * rate / price == 0.0
      ensures r.Err? && rate <= 1.0 ==> r.error == DivisionByZero
      ensures r.Ok? ==> r.value.Valid()
      ensures r.Ok? ==> r.value.initialBalance == initialBalance && r.value.leverage == leverage
      ensures r.Ok? ==> r.value.LegOf(side.Other()) == LegOf(side.Other())
      ensures r.Ok? ==> r.value.LegOf(side).amount == LegOf(side).amount + Balance(price) * rate / price
    {
      if rate > 1.0 then Err(InvalidRate)
      else if price == 0.0 then Err(DivisionByZero)
      else
        var amount := Balance(price) * rate / price;
        var leg := LegOf(side);
        if leg.amount + amount == 0.0 then Err(DivisionByZero)
        else
          Ok(Bought(side, price, amount))
    }

    /** The account after buying `amount` at `price` into the leg on `side`: the leg
        averages the fill in, and the margin pays the fill's cost divided by the leverage. */
    function Bought(side: Side, price: real, amount: real): (b: Account)
      requires Valid() && LegOf(side).amount + amount != 0.0
      ensures b.Valid() && b.leverage == leverage && b.initialBalance == initialBalance
      ensures b.LegOf(side).amount == LegOf(side).amount + amount
      ensures b.LegOf(side.Other()) == LegOf(side.Other())
    {
      WithLeg(side, LegOf(side).Added(price, amount)).(margin := margin - price * amount / leverage)
    }

    /** `Portfolio._remove`: close `rate` of the leg on `side` at `price`. A rate above 1
        is refused before anything changes, and so is a removal larger than the leg. */
    function Closed(side: Side, price: real, rate: real): (r: Result<Account>)
      requires Valid()
      ensures rate > 1.0 ==> r == Err(InvalidRate)
      ensures r.Ok? <==> rate <= 1.0 && LegOf(side).amount * rate <= LegOf(side).amount
      ensures r.Err? && rate <= 1.0 ==> r.error == InsufficientPosition
    {
      if rate > 1.0 then Err(InvalidRate)
      else
        match LegOf(side).Removed(price, LegOf(side).amount * rate)
        case Err(e) => Err(e)
        case Ok(m) => Ok(Settled(side, m))
    }

    /** The account after the removal `m` from the leg on `side`: the leg keeps what is
        left, and the margin is credited with the fill's cost divided by the leverage and
        with its realized P&L. */
    function Settled(side: Side, m: Removal): (a: Account)
      requires Valid()
      ensures a.leverage == leverage && a.initialBalance == initialBalance
      ensures a.LegOf(side) == m.rest
      ensures a.LegOf(side.Other()) == LegOf(side.Other())
    {
      WithLeg(side, m.rest).(margin := margin + m.fill.cost / leverage + m.fill.pnl)
    }

    /** `Portfolio.liquidate`: when the combined unrealized loss at `mark` reaches the
        unleveraged free margin, everything is wiped; otherwise nothing changes. */
    function Liquidated(mark: real): (r: Liquidation)
      ensures r.liquidated <==>
        long.Pnl(mark) + short.Pnl(mark) < 0.0 && -(long.Pnl(mark) + short.Pnl(mark)) >= margin
      ensures r.liquidated ==> r.after.initialBalance == initialBalance && r.after.leverage == leverage
      ensures r.liquidated ==> r.after.margin == 0.0
      ensures r.liquidated ==> r.after.long == Empty(Long) && r.after.short == Empty(Short)
      ensures !r.liquidated ==> r.after == this
    {
      var common := long.Pnl(mark) + short.Pnl(mark);
      if common < 0.0 && Abs(common) >= margin then
        Liquidation(true, Account(initialBalance, leverage, 0.0, Empty(Long), Empty(Short)))
      else
        Liquidation(false, this)
    }
  }

  /** `Portfolio(initial_balance, leverage)`. The source accepts any leverage, but with a
      zero leverage every later open or close fails half-way, so it is excluded here. */
  function NewAccount(initialBalance: real, leverage: real): (a: Account)
    requires leverage != 0.0
    ensures a.WellFormed()
    ensures a.initialBalance == initialBalance && a.leverage == leverage
    ensures a.margin == initialBalance
    ensures a.long.amount == 0.0 && a.short.amount == 0.0
  {
    Account(initialBalance, leverage, initialBalance, Empty(Long), Empty(Short))
  }

  /** With the guards of `_add` passed for the fill `amount`, opening buys it. */
  lemma OpenedBuys(a: Account, side: Side, price: real, rate: real, amount: real)
    ensures (a.Valid() && rate <= 1.0 && price != 0.0 && amount == a.Balance(price) * rate / price &&
             a.LegOf(side).amount + amount != 0.0) ==>
      a.Opened(side, price, rate) == Ok(a.Bought(side, price, amount))
  {
    if a.Valid() && rate <= 1.0 && price != 0.0 && amount == a.Balance(price) * rate / price &&
       a.LegOf(side).amount + amount != 0.0 {
      assert a.Opened(side, price, rate) == Ok(a.Bought(side, price, amount));
    }
  }

  /** A fill that would leave the leg at amount zero is refused as a division by zero. */
  lemma OpenedEmptying(a: Account, side: Side, price: real, rate: real, amount: real)
    ensures (a.Valid() && rate <= 1.0 && price != 0.0 && amount == a.Balance(price) * rate / price &&
             a.LegOf(side).amount + amount == 0.0) ==>
      a.Opened(side, price, rate) == Err(DivisionByZero)
  {
    if a.Valid() && rate <= 1.0 && price != 0.0 && amount == a.Balance(price) * rate / price &&
       a.LegOf(side).amount + amount == 0.0 {
      assert a.Opened(side, price, rate).Err?;
    }
  }

  /** Buying `amount` at `price` takes its cost off the leveraged free margin. */
  lemma BoughtFree(a: Account, side: Side, price: real, amount: real)
    requires a.Valid() && a.LegOf(side).amount + amount != 0.0
    ensures a.Bought(side, price, amount).Free() == a.Free() - price * amount
  {
    ScaleDifference(a.margin, price * amount, a.leverage);
  }

  /** Buying `amount` at `price` adds its cost to the leg's cost basis. */
  lemma BoughtCost(a: Account, side: Side, price: real, amount: real)
    requires a.Valid() && a.LegOf(side).amount + amount != 0.0
    ensures a.Bought(side, price, amount).LegOf(side).Cost() == a.LegOf(side).Cost() + price * amount
  {
  }

  /** Buying moves value from the free margin into the leg: equity is unchanged. */
  lemma BoughtEquity(a: Account, side: Side, price: real, amount: real)
    requires a.Valid() && a.LegOf(side).amount + amount != 0.0
    ensures a.Bought(side, price, amount).Equity() == a.Equity()
  {
    var b := a.Bought(side, price, amount);
    BoughtFree(a, side, price, amount);
    BoughtCost(a, side, price, amount);
    if side == Long {
      assert b.Equity() == b.Free() + b.long.Cost() + a.short.Cost();
    } else {
      assert b.Equity() == b.Free() + a.long.Cost() + b.short.Cost();
    }
  }

  /** Opening conserves equity: the leg's cost basis grows by `rate` of the balance marked
      at `price`, and the leveraged free margin shrinks by exactly as much. */
  lemma OpenedConservesEquity(a: Account, side: Side, price: real, rate: real)
    requires a.Valid() && a.Opened(side, price, rate).Ok?
    ensures var b := a.Opened(side, price, rate).value;
      b.Equity() == a.Equity() &&
      b.Free() == a.Free() - a.Balance(price) * rate &&
      b.LegOf(side).Cost() == a.LegOf(side).Cost() + a.Balance(price) * rate
  {
    var spend := a.Balance(price) * rate;
    var amount := spend / price;
    OpenedBuys(a, side, price, rate, amount);
    DivMulCancel(spend, price);
    assert price * amount == spend;
    BoughtFree(a, side, price, amount);
    BoughtCost(a, side, price, amount);
    BoughtEquity(a, side, price, amount);
  }

  /** Buying a non-negative amount at a positive price keeps a well-formed account well
      formed. */
  lemma BoughtPreservesWellFormed(a: Account, side: Side, price: real, amount: real)
    requires a.WellFormed() && price > 0.0 && amount >= 0.0 && a.LegOf(side).amount + amount != 0.0
    ensures a.Bought(side, price, amount).WellFormed()
  {
    AddedPreservesWellFormed(a.LegOf(side), price, amount);
  }

  /** An open at a positive price, with a non-negative rate of a non-negative balance,
      keeps a well-formed account well formed. */
  lemma OpenedPreservesWellFormed(a: Account, side: Side, price: real, rate: real)
    requires a.WellFormed() && price > 0.0 && rate >= 0.0 && a.Balance(price) >= 0.0
    requires a.Opened(side, price, rate).Ok?
    ensures a.Opened(side, price, rate).value.WellFormed()
  {
    var spend := a.Balance(price) * rate;
    var amount := spend / price;
    NonNegativeProduct(a.Balance(price), rate);
    NonNegativeQuotient(spend, price);
    OpenedBuys(a, side, price, rate, amount);
    BoughtPreservesWellFormed(a, side, price, amount);
  }

  /** Settling keeps the account's frame: the initial balance, the leverage and the other
      leg are untouched, and each leg stays on its side when the rest does. */
  lemma SettledKeeps(a: Account, side: Side, m: Removal)
    requires a.Valid() && m.rest.side == side
    ensures var b := a.Settled(side, m);
      b.Valid() && b.initialBalance == a.initialBalance && b.leverage == a.leverage &&
      b.LegOf(side.Other()) == a.LegOf(side.Other())
  {
  }

  /** Settling a fill credits the leveraged free margin with the fill's cost and with its
      P&L times the leverage. */
  lemma SettledCreditsFree(a: Account, side: Side, m: Removal)
    requires a.Valid()
    ensures a.Settled(side, m).Free() == a.Free() + m.fill.cost + m.fill.pnl * a.leverage
  {
    CreditScaled(a.margin, m.fill.cost, m.fill.pnl, a.leverage);
  }

  /** When the fill and the rest together carry the leg's cost basis, settling moves
      equity by the fill's P&L times the leverage. */
  lemma SettledEquity(a: Account, side: Side, m: Removal)
    requires a.Valid() && m.rest.side == side
    requires m.rest.Cost() + m.fill.cost == a.LegOf(side).Cost()
    ensures a.Settled(side, m).Equity() == a.Equity() + m.fill.pnl * a.leverage
  {
    var b := a.Settled(side, m);
    SettledCreditsFree(a, side, m);
    if side == Long {
      assert b.short == a.short;
    } else {
      assert b.long == a.long;
    }
  }

  /** When the fill and the rest together carry the leg's cost basis and P&L at `mark`,
      settling moves the balance at `mark` by the fill's P&L times (leverage - 1). */
  lemma SettledBalance(a: Account, side: Side, m: Removal, mark: real)
    requires a.Valid() && m.rest.side == side
    requires m.rest.Cost() + m.fill.cost == a.LegOf(side).Cost()
    requires m.rest.Pnl(mark) + m.fill.pnl == a.LegOf(side).Pnl(mark)
    ensures a.Settled(side, m).Balance(mark) == a.Balance(mark) + m.fill.pnl * (a.leverage - 1.0)
  {
    var b := a.Settled(side, m);
    SettledEquity(a, side, m);
    ScaleLessOne(m.fill.pnl, a.leverage);
    if side == Long {
      assert b.short == a.short;
    } else {
      assert b.long == a.long;
    }
  }

  /** Settling the removal of `qty` from a leg moves equity by the realized P&L times the
      leverage. */
  lemma RemovalEquity(a: Account, side: Side, price: real, qty: real)
    ensures a.Valid() && qty <= a.LegOf(side).amount ==>
      a.Settled(side, a.LegOf(side).Removed(price, qty).value).Equity() ==
        a.Equity() + a.LegOf(side).Removed(price, qty).value.fill.pnl * a.leverage
  {
    var leg := a.LegOf(side);
    if a.Valid() && qty <= leg.amount {
      RemovedSplitsLeg(leg, price, qty);
      SettledEquity(a, side, leg.Removed(price, qty).value);
    }
  }

  /** Settling the removal of `qty` from a leg moves the balance at the exit price by the
      realized P&L times (leverage - 1). */
  lemma RemovalBalance(a: Account, side: Side, price: real, qty: real)
    ensures a.Valid() && qty <= a.LegOf(side).amount ==>
      a.Settled(side, a.LegOf(side).Removed(price, qty).value).Balance(price) ==
        a.Balance(price) + a.LegOf(side).Removed(price, qty).value.fill.pnl * (a.leverage - 1.0)
  {
    var leg := a.LegOf(side);
    if a.Valid() && qty <= leg.amount {
      RemovedSplitsLeg(leg, price, qty);
      SettledBalance(a, side, leg.Removed(price, qty).value, price);
    }
  }

  /** Settling the removal of `rate` of a leg moves equity by `rate` of the leg's P&L at
      the exit price times the leverage. */
  lemma FractionEquity(a: Account, side: Side, price: real, rate: real)
    ensures a.Valid() && a.LegOf(side).amount * rate <= a.LegOf(side).amount ==>
      a.Settled(side, a.LegOf(side).Removed(price, a.LegOf(side).amount * rate).value).Equity() ==
        a.Equity() + a.LegOf(side).Pnl(price) * rate * a.leverage
  {
    RemovedFraction(a.LegOf(side), price, rate);
    RemovalEquity(a, side, price, a.LegOf(side).amount * rate);
  }

  /** Settling the removal of `rate` of a leg moves the balance at the exit price by
      `rate` of the leg's P&L there times (leverage - 1). */
  lemma FractionBalance(a: Account, side: Side, price: real, rate: real)
    requires a.Valid() && a.LegOf(side).amount * rate <= a.LegOf(side).amount
    ensures a.Settled(side, a.LegOf(side).Removed(price, a.LegOf(side).amount * rate).value).Balance(price) ==
      a.Balance(price) + a.LegOf(side).Pnl(price) * rate * (a.leverage - 1.0)
  {
    RemovedFractionPnl(a.LegOf(side), price, rate);
    RemovalBalance(a, side, price, a.LegOf(side).amount * rate);
  }

  /** A successful close settles the removal of `rate` of the leg's amount. */
  lemma ClosedIsSettled(a: Account, side: Side, price: real, rate: real)
    ensures a.Valid() && a.Closed(side, price, rate).Ok? ==>
      a.LegOf(side).Removed(price, a.LegOf(side).amount * rate).Ok? &&
      a.Closed(side, price, rate).value ==
        a.Settled(side, a.LegOf(side).Removed(price, a.LegOf(side).amount * rate).value)
  {
  }

  /** With the rate guard of `_remove` passed, a removal the leg refuses makes the close
      fail with the same error. */
  lemma ClosedRefusedAsRemoval(a: Account, side: Side, price: real, rate: real)
    ensures a.Valid() && rate <= 1.0 && a.LegOf(side).Removed(price, a.LegOf(side).amount * rate).Err? ==>
      a.Closed(side, price, rate) == Err(a.LegOf(side).Removed(price, a.LegOf(side).amount * rate).error)
  {
  }

  /** With the rate guard of `_remove` passed, a removal the leg accepts is settled. */
  lemma ClosedSettlesRemoval(a: Account, side: Side, price: real, rate: real)
    ensures a.Valid() && rate <= 1.0 && a.LegOf(side).Removed(price, a.LegOf(side).amount * rate).Ok? ==>
      a.Closed(side, price, rate) ==
        Ok(a.Settled(side, a.LegOf(side).Removed(price, a.LegOf(side).amount * rate).value))
  {
    if a.Valid() && rate <= 1.0 && a.LegOf(side).Removed(price, a.LegOf(side).amount * rate).Ok? {
      assert a.Closed(side, price, rate).Ok?;
      ClosedIsSettled(a, side, price, rate);
    }
  }

  /** What a close keeps: the account stays valid, the initial balance, the leverage and
      the other leg are untouched, the leg shrinks by `rate` of its amount, and a full
      close leaves it empty. */
  lemma ClosedKeeps(a: Account, side: Side, price: real, rate: real)
    requires a.Valid() && a.Closed(side, price, rate).Ok?
    ensures var b := a.Closed(side, price, rate).value;
      b.Valid() && b.initialBalance == a.initialBalance && b.leverage == a.leverage &&
      b.LegOf(side.Other()) == a.LegOf(side.Other()) &&
      b.LegOf(side).amount == a.LegOf(side).amount - a.LegOf(side).amount * rate &&
      (rate == 1.0 ==> b.LegOf(side) == Empty(side))
    ensures a.Closed(side, price, rate).value.LegOf(side).amount == 0.0 ==>
      a.Closed(side, price, rate).value.LegOf(side) == Empty(side)
  {
    if rate == 1.0 {
      RemovedAllEmpties(a.LegOf(side), price);
    }
    RemovedUpdatesLeg(a.LegOf(side), price, a.LegOf(side).amount * rate);
  }

  /** A close, at any rate, keeps a well-formed account well formed. */
  lemma ClosedPreservesWellFormed(a: Account, side: Side, price: real, rate: real)
    requires a.WellFormed() && a.Closed(side, price, rate).Ok?
    ensures a.Closed(side, price, rate).value.WellFormed()
  {
    ClosedIsSettled(a, side, price, rate);
    if a.LegOf(side).amount == 0.0 {
      assert a.LegOf(side).amount * rate == 0.0;
    }
  }

  /** Closing `rate` of a leg credits the leveraged free margin with `rate` of the leg's
      cost basis and with `rate` of its unrealized P&L at `price` times the leverage. */
  lemma ClosedFree(a: Account, side: Side, price: real, rate: real)
    requires a.Valid() && a.Closed(side, price, rate).Ok?
    ensures a.Closed(side, price, rate).value.Free() ==
      a.Free() + a.LegOf(side).Cost() * rate + a.LegOf(side).Pnl(price) * rate * a.leverage
  {
    ClosedIsSettled(a, side, price, rate);
    RemovedFraction(a.LegOf(side), price, rate);
    SettledCreditsFree(a, side, a.LegOf(side).Removed(price, a.LegOf(side).amount * rate).value);
  }

  /** Closing `rate` of a leg moves equity by `rate` of its unrealized P&L at `price`
      times the leverage: the cost basis only moves from the leg to the free margin. */
  lemma ClosedEquity(a: Account, side: Side, price: real, rate: real)
    requires a.Valid() && a.Closed(side, price, rate).Ok?
    ensures a.Closed(side, price, rate).value.Equity() ==
      a.Equity() + a.LegOf(side).Pnl(price) * rate * a.leverage
  {
    ClosedIsSettled(a, side, price, rate);
    FractionEquity(a, side, price, rate);
  }

  /** Closing `rate` of a leg moves the balance at `price` by `rate` of its unrealized
      P&L there times (leverage - 1). */
  lemma ClosedBalance(a: Account, side: Side, price: real, rate: real)
    requires a.Valid() && a.Closed(side, price, rate).Ok?
    ensures a.Closed(side, price, rate).value.Balance(price) ==
      a.Balance(price) + a.LegOf(side).Pnl(price) * rate * (a.leverage - 1.0)
  {
    ClosedIsSettled(a, side, price, rate);
    FractionBalance(a, side, price, rate);
  }

  /** Closing realizes P&L: with `realized` the closed fraction of the leg's unrealized
      P&L at `price`, the leveraged free margin grows by the closed cost basis plus
      `realized` times the leverage, equity grows by `realized` times the leverage, and
      the balance at `price` moves by `realized` times (leverage - 1). */
  lemma ClosedRealizesPnl(a: Account, side: Side, price: real, rate: real)
    requires a.Valid() && a.Closed(side, price, rate).Ok?
    ensures var b := a.Closed(side, price, rate).value;
      var realized := a.LegOf(side).Pnl(price) * rate;
      b.Free() == a.Free() + a.LegOf(side).Cost() * rate + realized * a.leverage &&
      b.Equity() == a.Equity() + realized * a.leverage &&
      b.Balance(price) == a.Balance(price) + realized * (a.leverage - 1.0)
  {
    ClosedFree(a, side, price, rate);
    ClosedEquity(a, side, price, rate);
    ClosedBalance(a, side, price, rate);
  }

  /** The first fill into a leg holding nothing buys its units at exactly the fill price,
      and the margin pays `rate` of the balance divided by the leverage. */
  lemma OpenedFromFlat(a: Account, side: Side, price: real, rate: real)
    requires a.Valid() && a.LegOf(side).amount == 0.0 && a.Opened(side, price, rate).Ok?
    ensures a.Opened(side, price, rate).value ==
      a.WithLeg(side, Leg(side, price, a.Balance(price) * rate / price))
        .(margin := a.margin - a.Balance(price) * rate / a.leverage)
  {
    var spend := a.Balance(price) * rate;
    var amount := spend / price;
    AddedToFlat(a.LegOf(side), price, amount);
    DivMulCancel(spend, price);
  }

  /** Closing with rate 1 settles the removal of the whole leg. */
  lemma ClosedAllIsSettled(a: Account, side: Side, price: real)
    ensures a.Valid() ==>
      a.Closed(side, price, 1.0) ==
        Ok(a.Settled(side, a.LegOf(side).Removed(price, a.LegOf(side).amount).value))
  {
    assert a.LegOf(side).amount * 1.0 == a.LegOf(side).amount;
  }

  /** An account whose leg on `side` was just replaced by a leg of that side holds the
      new leg and stays valid. */
  lemma LegReplaced(a: Account, side: Side, leg: Leg, m: real)
    ensures a.Valid() && leg.side == side ==>
      a.WithLeg(side, leg).(margin := m).Valid() && a.WithLeg(side, leg).(margin := m).LegOf(side) == leg
  {
  }

  /** Settling on an account whose leg was just replaced and whose margin was just set
      depends only on the account before the replacement. */
  lemma SettledReplaced(a: Account, side: Side, leg: Leg, m: real, r: Removal)
    ensures a.Valid() && leg.side == side ==>
      a.WithLeg(side, leg).(margin := m).Settled(side, r) ==
        a.WithLeg(side, r.rest).(margin := m + r.fill.cost / a.leverage + r.fill.pnl)
  {
  }

  /** Closing all of a leg bought at `price` at that same price empties it and returns its
      whole cost basis to the margin, divided by the leverage, with no P&L. */
  lemma ClosedAllAtEntry(a: Account, side: Side, price: real, q: real, m: real)
    ensures a.Valid() ==>
      a.WithLeg(side, Leg(side, price, q)).(margin := m).Closed(side, price, 1.0) ==
        Ok(a.WithLeg(side, Empty(side)).(margin := m + price * q / a.leverage))
  {
    var leg := Leg(side, price, q);
    var b := a.WithLeg(side, leg).(margin := m);
    LegReplaced(a, side, leg, m);
    ClosedAllIsSettled(b, side, price);
    RemovedAllAtEntry(leg);
    SettledReplaced(a, side, leg, m, leg.Removed(price, q).value);
  }

  /** Putting an empty leg into an account whose leg on that side is already flat changes
      nothing. */
  lemma EmptiedFlatIsSame(a: Account, side: Side)
    ensures a.Valid() && a.LegOf(side).price == 0.0 && a.LegOf(side).amount == 0.0 ==>
      a.WithLeg(side, Empty(side)) == a
  {
    FlatIsEmpty(a.LegOf(side));
  }

  /** Opening a position from a leg holding nothing and closing all of it at the same
      price leaves that leg empty and gives the margin spent back: nothing is realized. */
  lemma OpenThenCloseAll(a: Account, side: Side, price: real, rate: real)
    requires a.Valid() && a.LegOf(side).amount == 0.0 && a.Opened(side, price, rate).Ok?
    ensures a.Opened(side, price, rate).value.Closed(side, price, 1.0) == Ok(a.WithLeg(side, Empty(side)))
  {
    var spend := a.Balance(price) * rate;
    var q := spend / price;
    OpenedFromFlat(a, side, price, rate);
    DivMulCancel(spend, price);
    ClosedAllAtEntry(a, side, price, q, a.margin - spend / a.leverage);
    assert price * q == spend;
  }

  /** The round trip: on a well-formed account, opening from an empty leg and closing all
      of it at the same price gives back the account exactly. */
  lemma OpenThenCloseRoundTrip(a: Account, side: Side, price: real, rate: real)
    requires a.WellFormed() && a.LegOf(side).amount == 0.0 && a.Opened(side, price, rate).Ok?
    ensures a.Opened(side, price, rate).value.Closed(side, price, 1.0) == Ok(a)
  {
    OpenThenCloseAll(a, side, price, rate);
    EmptiedFlatIsSame(a, side);
  }

  /** Opening with rate zero changes nothing, except that on an empty leg the source's
      average-price update divides by zero. */
  lemma OpenedNothing(a: Account, side: Side, price: real)
    requires a.Valid()
    ensures a.Opened(side, price, 0.0) ==
      if price == 0.0 || a.LegOf(side).amount == 0.0 then Err(DivisionByZero) else Ok(a)
  {
    if price != 0.0 && a.LegOf(side).amount != 0.0 {
      var leg := a.LegOf(side);
      assert a.Balance(price) * 0.0 / price == 0.0;
      MulDivCancel(leg.price, leg.amount);
      assert leg.Added(price, 0.0) == leg;
    }
  }

  /** Closing with rate zero changes nothing on a well-formed account. */
  lemma ClosedNothing(a: Account, side: Side, price: real)
    requires a.WellFormed()
    ensures a.Closed(side, price, 0.0) == Ok(a)
  {
    var leg := a.LegOf(side);
    assert leg.amount * 0.0 == 0.0;
    var m := leg.Removed(price, 0.0).value;
    assert m.rest == leg;
    assert m.fill == Fill(0.0, 0.0);
  }

  /** With both legs empty the account is all free margin: its balance at any mark is its
      equity, which is its leveraged free margin. */
  lemma FlatAccountBalance(a: Account, mark: real)
    requires a.long.amount == 0.0 && a.short.amount == 0.0
    ensures a.Balance(mark) == a.Equity()
    ensures a.Equity() == a.Free()
    ensures a.Free() == a.margin * a.leverage
  {
  }

  /** Marked at the entry price of both legs, the balance is the equity: no P&L is open. */
  lemma BalanceAtEntry(a: Account, mark: real)
    requires mark == a.long.price && mark == a.short.price
    ensures a.Balance(mark) == a.Equity()
  {
    PnlAtEntry(a.long);
    PnlAtEntry(a.short);
  }

  /** After a liquidation no free margin is left. */
  lemma LiquidatedFree(a: Account, mark: real)
    requires a.Liquidated(mark).liquidated
    ensures a.Liquidated(mark).after.Free() == 0.0
  {
    ZeroScaled(a.Liquidated(mark).after.margin, a.leverage);
  }

  /** After a liquidation the equity is zero. */
  lemma LiquidatedEquity(a: Account, mark: real)
    requires a.Liquidated(mark).liquidated
    ensures a.Liquidated(mark).after.Equity() == 0.0
  {
    LiquidatedFree(a, mark);
  }

  /** After a liquidation the balance at any mark is zero. */
  lemma LiquidatedBalance(a: Account, mark: real, price: real)
    requires a.Liquidated(mark).liquidated
    ensures a.Liquidated(mark).after.Balance(price) == 0.0
  {
    LiquidatedEquity(a, mark);
    EmptyHasNoPnl(Long, price);
    EmptyHasNoPnl(Short, price);
  }

  /** After a liquidation nothing is left: free margin, equity and balance at any mark are
      all zero. */
  lemma LiquidationWipesAccount(a: Account, mark: real, price: real)
    requires a.Liquidated(mark).liquidated
    ensures a.Liquidated(mark).after.Free() == 0.0
    ensures a.Liquidated(mark).after.Equity() == 0.0
    ensures a.Liquidated(mark).after.Balance(price) == 0.0
  {
    LiquidatedFree(a, mark);
    LiquidatedEquity(a, mark);
    LiquidatedBalance(a, mark, price);
  }
}
