/** The mutable `Portfolio` of domain/portfolio.py: the free margin and the two position
    objects are updated in place, and every method is proved against the `Account`
    function that gives its meaning. */
module Ledger {
  import opened Outcomes
  import opened Positions
  import opened Portfolios

  class Portfolio {
    const initialBalance: real
    const leverage: real
    /** The source's `_free`: free margin counted without leverage. */
    var margin: real
    var long: Position
    var short: Position

    /** The two positions are distinct objects on their own sides, and the leverage can be
        divided by. */
    predicate Valid()
      reads this, long, short
    {
      leverage != 0.0 && long != short && long.side == Long && short.side == Short
    }

    /** The value the ledger currently holds. */
    function State(): Account
      reads this, long, short
    {
      Account(initialBalance, leverage, margin, long.State(), short.State())
    }

    /** `Portfolio(initial_balance, leverage)`. */
    constructor (initialBalance: real, leverage: real)
      requires leverage != 0.0
      ensures Valid() && State() == NewAccount(initialBalance, leverage)
    {
      this.initialBalance := initialBalance;
      this.leverage := leverage;
      margin := initialBalance;
      long := new Position(Long);
      short := new Position(Short);
    }

    /** `Portfolio.reset`: the margin returns to the initial balance and both positions
        are replaced by fresh ones. */
    method Reset()
      modifies this
      ensures fresh(long) && fresh(short)
      ensures State() == old(State()).Reset()
      ensures leverage != 0.0 ==> Valid()
    {
      margin := initialBalance;
      long := new Position(Long);
      short := new Position(Short);
    }

    /** The position object held on `side`. */
    function PositionOf(side: Side): (p: Position)
      reads this
      ensures p == long || p == short
      ensures long.side == Long && short.side == Short ==> p.side == side
    {
      match side
      case Long => long
      case Short => short
    }

    /** `Portfolio._add` on the position on `side`: spend `rate` of the balance marked at
        `price`. On a failure nothing has changed. */
    method Add(side: Side, price: real, rate: real) returns (o: Outcome)
      requires Valid()
      modifies this, long, short
      ensures Valid() && long == old(long) && short == old(short)
      ensures var want := old(State()).Opened(side, price, rate);
        if want.Ok? then o == Pass && State() == want.value
        else o == Fail(want.error) && State() == old(State())
    {
      var before := State();
      if rate > 1.0 {
        return Fail(InvalidRate);
      }
      if price == 0.0 {
        return Fail(DivisionByZero);
      }
      var amount := before.Balance(price) * rate / price;
      var position := PositionOf(side);
      assert position.amount == before.LegOf(side).amount;
      if position.amount + amount == 0.0 {
        OpenedEmptying(before, side, price, rate, amount);
        return Fail(DivisionByZero);
      }
      OpenedBuys(before, side, price, rate, amount);
      Buy(side, price, amount);
      return Pass;
    }

    /** The body of `Portfolio._add` once its guards have passed: `_Position.add` on the
        position on `side`, then the margin pays the cost divided by the leverage. */
    method Buy(side: Side, price: real, amount: real)
      requires Valid() && State().LegOf(side).amount + amount != 0.0
      modifies this, long, short
      ensures Valid() && long == old(long) && short == old(short)
      ensures State() == old(State()).Bought(side, price, amount)
    {
      var position := PositionOf(side);
      var cost := position.Add(price, amount);
      margin := margin - cost / leverage;
    }

    /** `Portfolio.add_long`. */
    method AddLong(price: real, rate: real) returns (o: Outcome)
      requires Valid()
      modifies this, long, short
      ensures Valid() && long == old(long) && short == old(short)
      ensures var want := old(State()).Opened(Long, price, rate);
        if want.Ok? then o == Pass && State() == want.value
        else o == Fail(want.error) && State() == old(State())
    {
      o := Add(Long, price, rate);
    }

    /** `Portfolio.add_short`. */
    method AddShort(price: real, rate: real) returns (o: Outcome)
      requires Valid()
      modifies this, long, short
      ensures Valid() && long == old(long) && short == old(short)
      ensures var want := old(State()).Opened(Short, price, rate);
        if want.Ok? then o == Pass && State() == want.value
        else o == Fail(want.error) && State() == old(State())
    {
      o := Add(Short, price, rate);
    }

    /** `Portfolio._remove` on the position on `side`: close `rate` of its amount at
        `price`, crediting the margin with the cost divided by the leverage and with the
        realized P&L. On a failure nothing has changed. */
    method Remove(side: Side, price: real, rate: real) returns (o: Outcome)
      requires Valid()
      modifies this, long, short
      ensures Valid() && long == old(long) && short == old(short)
      ensures var want := old(State()).Closed(side, price, rate);
        if want.Ok? then o == Pass && State() == want.value
        else o == Fail(want.error) && State() == old(State())
    {
      ghost var before := State();
      if rate > 1.0 {
        return Fail(InvalidRate);
      }
      var amount := PositionOf(side).amount * rate;
      assert amount == before.LegOf(side).amount * rate;
      ClosedRefusedAsRemoval(before, side, price, rate);
      ClosedSettlesRemoval(before, side, price, rate);
      var r := Sell(side, price, amount);
      if r.Err? {
        return Fail(r.error);
      }
      assert before.Closed(side, price, rate) == Ok(State());
      return Pass;
    }

    /** The body of `Portfolio._remove` once its guard has passed: `_Position.remove` on
        the position on `side`, then the margin is credited with the cost divided by the
        leverage and with the realized P&L. */
    method Sell(side: Side, price: real, amount: real) returns (r: Result<Fill>)
      requires Valid()
      modifies this, long, short
      ensures Valid() && long == old(long) && short == old(short)
      ensures var want := old(State()).LegOf(side).Removed(price, amount);
        if want.Ok? then r == Ok(want.value.fill) && State() == old(State()).Settled(side, want.value)
        else r == Err(want.error) && State() == old(State())
    {
      var position := PositionOf(side);
      r := position.Remove(price, amount);
      if r.Ok? {
        margin := margin + r.value.cost / leverage;
        margin := margin + r.value.pnl;
      }
    }

    /** `Portfolio.remove_long`. */
    method RemoveLong(price: real, rate: real) returns (o: Outcome)
      requires Valid()
      modifies this, long, short
      ensures Valid() && long == old(long) && short == old(short)
      ensures var want := old(State()).Closed(Long, price, rate);
        if want.Ok? then o == Pass && State() == want.value
        else o == Fail(want.error) && State() == old(State())
    {
      o := Remove(Long, price, rate);
    }

    /** `Portfolio.remove_short`. */
    method RemoveShort(price: real, rate: real) returns (o: Outcome)
      requires Valid()
      modifies this, long, short
      ensures Valid() && long == old(long) && short == old(short)
      ensures var want := old(State()).Closed(Short, price, rate);
        if want.Ok? then o == Pass && State() == want.value
        else o == Fail(want.error) && State() == old(State())
    {
      o := Remove(Short, price, rate);
    }

    /** `Portfolio.liquidate`: when the combined P&L at `price` is a loss at least as large
        as the free margin, both positions are replaced by fresh ones and the margin is
        zeroed. */
    method Liquidate(price: real) returns (liquidated: bool)
      requires Valid()
      modifies this
      ensures Valid()
      ensures var want := old(State()).Liquidated(price);
        liquidated == want.liquidated && State() == want.after
      ensures liquidated ==> fresh(long) && fresh(short)
      ensures !liquidated ==> long == old(long) && short == old(short)
    {
      var common := long.State().Pnl(price) + short.State().Pnl(price);
      if common < 0.0 && Abs(common) >= margin {
        long := new Position(Long);
        short := new Position(Short);
        margin := 0.0;
        return true;
      }
      return false;
    }
  }
}
