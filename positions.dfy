/** One side of the ledger's exposure (`_Position` in domain/portfolio.py): a fixed side,
    a volume-weighted average entry price and an open amount. Prices and amounts are
    real numbers, so the accounting identities hold exactly. */
module Positions {
  import opened Outcomes
  import opened RealAlgebra

  /** The fixed side of a leg. */
  datatype Side = Long | Short {
    /** The signed multiplier `side` of the source: +1 for a long leg, -1 for a short one. */
    function Sign(): (s: real)
      ensures s > 0.0 <==> Long?
      ensures s == 1.0 || s == -1.0
    {
      if Long? then 1.0 else -1.0
    }

    /** The gain per unit held when the price moves from `entry` to `exit`: the move
        itself on the long side, its opposite on the short side. This is the source's
        `(exit - entry) * side`, written as a case so that no product with the sign is
        formed (see `GainIsSignedMove`). */
    function Gain(entry: real, exit: real): real {
      if Long? then exit - entry else entry - exit
    }

    /** The side a portfolio holds opposite to this one. */
    function Other(): (o: Side)
      ensures o != this
    {
      if Long? then Short else Long
    }
  }

  /** What closing part of a leg hands back: the cost basis closed and the realized P&L. */
  datatype Fill = Fill(cost: real, pnl: real)

  /** A successful removal: the leg that remains and what was closed. */
  datatype Removal = Removal(rest: Leg, fill: Fill)

  /** The state of a `_Position`: `side`, average entry `price` and open `amount`. */
  datatype Leg = Leg(side: Side, price: real, amount: real) {

    /** The invariant the ledger keeps while it is driven with non-negative fills at
        positive prices: the amount is never negative and the average price is zero
        exactly when the leg is empty. */
    predicate WellFormed() {
      amount >= 0.0 && price >= 0.0 && (amount == 0.0 <==> price == 0.0)
    }

    /** Cost basis of the leg: average price times amount. */
    function Cost(): real {
      price * amount
    }

    /** Unrealized profit or loss of the leg at the mark price `mark`. */
    function Pnl(mark: real): real {
      side.Gain(price, mark) * amount
    }

    /** Unrealized P&L as a fraction of the cost basis; the source divides by the cost
        and fails on an empty leg. */
    function PnlRate(mark: real): (r: real)
      requires Cost() != 0.0
      ensures r * Cost() == Pnl(mark)
    {
      Pnl(mark) / Cost()
    }

    /** `_Position.add`: merge a fill of `fillAmount` at `fillPrice` into the average.
        The source divides by the new amount, so it must not be zero. */
    function Added(fillPrice: real, fillAmount: real): (l: Leg)
      requires amount + fillAmount != 0.0
      ensures l.side == side
      ensures l.amount == amount + fillAmount
      ensures l.Cost() == Cost() + fillPrice * fillAmount
    {
      Leg(side, (price * amount + fillPrice * fillAmount) / (amount + fillAmount), amount + fillAmount)
    }

    /** `_Position.remove`: close `qty` of the leg at `exitPrice`. */
    function Removed(exitPrice: real, qty: real): (r: Result<Removal>)
      ensures r.Err? <==> qty > amount
      ensures r.Err? ==> r.error == InsufficientPosition
    {
      if qty > amount then Err(InsufficientPosition)
      else
        var left := amount - qty;
        var fill := Fill(price * qty, side.Gain(price, exitPrice) * qty);
        Ok(Removal(if left == 0.0 then Empty(side) else Leg(side, price, left), fill))
    }
  }

  /** A fresh `_Position(side)`: nothing held, average price zero. */
  function Empty(side: Side): (l: Leg)
    ensures l.side == side && l.amount == 0.0 && l.WellFormed()
  {
    Leg(side, 0.0, 0.0)
  }

  /** A leg with neither price nor amount is the empty leg of its side. */
  lemma FlatIsEmpty(l: Leg)
    ensures l.price == 0.0 && l.amount == 0.0 ==> l == Empty(l.side)
  {
  }

  /** An empty leg has no cost basis. */
  lemma EmptyHasNoCost(side: Side)
    ensures Empty(side).Cost() == 0.0
  {
  }

  /** An empty leg has no unrealized P&L at any mark price. */
  lemma EmptyHasNoPnl(side: Side, mark: real)
    ensures Empty(side).Pnl(mark) == 0.0
  {
  }

  /** A well-formed leg has a non-negative cost basis. */
  lemma CostNonNegative(l: Leg)
    requires l.WellFormed()
    ensures l.Cost() >= 0.0
  {
    NonNegativeProduct(l.price, l.amount);
  }

  /** Marked at its own average price, a leg has no unrealized P&L. */
  lemma PnlAtEntry(l: Leg)
    ensures l.Pnl(l.price) == 0.0
  {
    assert l.side.Gain(l.price, l.price) == 0.0;
  }

  /** `Gain` is the source's signed price move `(exit - entry) * side`. */
  lemma GainIsSignedMove(side: Side, entry: real, exit: real)
    ensures side.Gain(entry, exit) == (exit - entry) * side.Sign()
  {
  }

  /** Adding a non-negative amount at a positive price keeps a leg well formed, and a
      leg that holds something after the add has a positive average price. */
  lemma AddedPreservesWellFormed(l: Leg, fillPrice: real, fillAmount: real)
    requires l.WellFormed() && fillPrice > 0.0 && fillAmount >= 0.0
    requires l.amount + fillAmount != 0.0
    ensures l.Added(fillPrice, fillAmount).WellFormed()
    ensures l.Added(fillPrice, fillAmount).price > 0.0
  {
    var total := l.amount + fillAmount;
    var weighted := l.price * l.amount + fillPrice * fillAmount;
    assert total > 0.0;
    assert l.price * l.amount >= 0.0;
    if fillAmount > 0.0 {
      assert fillPrice * fillAmount > 0.0;
    } else {
      assert l.amount > 0.0 && l.price > 0.0;
      assert l.price * l.amount > 0.0;
    }
    assert weighted > 0.0;
    PositiveQuotient(weighted, total);
  }

  /** The new average price lies between the old average and the fill price. */
  lemma AddedPriceBetween(l: Leg, fillPrice: real, fillAmount: real)
    requires l.amount > 0.0 && fillAmount > 0.0
    ensures var p := l.Added(fillPrice, fillAmount).price;
      (l.price <= fillPrice ==> l.price <= p <= fillPrice) &&
      (fillPrice <= l.price ==> fillPrice <= p <= l.price)
  {
    var p := l.Added(fillPrice, fillAmount).price;
    assert p == (l.price * l.amount + fillPrice * fillAmount) / (l.amount + fillAmount);
    WeightedMeanBetween(l.price, l.amount, fillPrice, fillAmount);
  }

  /** Two fills into a leg holding nothing average to the amount-weighted mean of their
      prices. */
  lemma AddedTwiceIsWeightedMean(l: Leg, p1: real, a1: real, p2: real, a2: real)
    requires l.amount == 0.0 && a1 != 0.0 && a1 + a2 != 0.0
    ensures l.Added(p1, a1).Added(p2, a2) == Leg(l.side, (p1 * a1 + p2 * a2) / (a1 + a2), a1 + a2)
  {
    AddedToFlat(l, p1, a1);
  }

  /** The first fill into a leg holding nothing sets the average price to the fill
      price, whatever average the leg carried before. */
  lemma AddedToFlat(l: Leg, p: real, a: real)
    requires l.amount == 0.0 && a != 0.0
    ensures l.Added(p, a) == Leg(l.side, p, a)
  {
    assert l.price * l.amount + p * a == p * a;
    assert l.amount + a == a;
    MulDivCancel(p, a);
  }

  /** What `_Position.remove` does to the leg when enough is held: the amount drops by
      `qty`, the cost basis closed is the old average price times `qty`, the realized
      P&L is the signed price move `(exitPrice - price) * qty * side`, and the average
      price is reset to zero exactly when nothing is left. */
  lemma RemovedUpdatesLeg(l: Leg, exitPrice: real, qty: real)
    requires qty <= l.amount
    ensures l.Removed(exitPrice, qty).Ok?
    ensures l.Removed(exitPrice, qty).value.rest.side == l.side
    ensures l.Removed(exitPrice, qty).value.rest.amount == l.amount - qty
    ensures l.Removed(exitPrice, qty).value.rest.price ==
      if l.amount - qty == 0.0 then 0.0 else l.price
    ensures l.Removed(exitPrice, qty).value.fill.cost == l.price * qty
    ensures l.Removed(exitPrice, qty).value.fill.pnl == (exitPrice - l.price) * qty * l.side.Sign()
  {
    GainIsSignedMove(l.side, l.price, exitPrice);
    MulSwap(exitPrice - l.price, l.side.Sign(), qty);
  }

  /** Removal splits a leg without creating or destroying value: the cost basis of what
      remains plus the cost basis closed is the old cost basis, and the unrealized P&L of
      what remains plus the realized P&L is the old unrealized P&L at the exit price. */
  lemma RemovedSplitsLeg(l: Leg, exitPrice: real, qty: real)
    requires qty <= l.amount
    ensures l.Removed(exitPrice, qty).Ok?
    ensures var m := l.Removed(exitPrice, qty).value;
      m.rest.Cost() + m.fill.cost == l.Cost() &&
      m.rest.Pnl(exitPrice) + m.fill.pnl == l.Pnl(exitPrice)
  {
    if qty == l.amount {
      RemovedAllEmpties(l, exitPrice);
      EmptyHasNoPnl(l.side, exitPrice);
    } else {
      RemovedPartSplits(l, exitPrice, qty);
    }
  }

  /** The case of `RemovedSplitsLeg` where part of the leg stays open at the same price. */
  lemma RemovedPartSplits(l: Leg, exitPrice: real, qty: real)
    requires qty < l.amount
    ensures l.Removed(exitPrice, qty).Ok?
    ensures var m := l.Removed(exitPrice, qty).value;
      m.rest.Cost() + m.fill.cost == l.Cost() &&
      m.rest.Pnl(exitPrice) + m.fill.pnl == l.Pnl(exitPrice)
  {
    var m := l.Removed(exitPrice, qty).value;
    var left := l.amount - qty;
    assert m.rest == Leg(l.side, l.price, left);
    SplitProduct(l.price, left, qty);
    SplitProduct(l.side.Gain(l.price, exitPrice), left, qty);
  }

  /** Closing the fraction `rate` of a leg closes that fraction of its cost basis and
      realizes that fraction of its unrealized P&L at the exit price; what remains holds
      the rest of both. */
  lemma RemovedFraction(l: Leg, exitPrice: real, rate: real)
    ensures l.amount * rate <= l.amount ==> l.Removed(exitPrice, l.amount * rate).Ok?
    ensures l.amount * rate <= l.amount ==>
      l.Removed(exitPrice, l.amount * rate).value.rest.side == l.side
    ensures l.amount * rate <= l.amount ==>
      l.Removed(exitPrice, l.amount * rate).value.fill.cost == l.Cost() * rate
    ensures l.amount * rate <= l.amount ==>
      l.Removed(exitPrice, l.amount * rate).value.fill.pnl == l.Pnl(exitPrice) * rate
  {
    if l.amount * rate <= l.amount {
      RemovedFractionCost(l, exitPrice, rate);
      RemovedFractionPnl(l, exitPrice, rate);
    }
  }

  /** The cost basis closed by removing the fraction `rate` of a leg. */
  lemma RemovedFractionCost(l: Leg, exitPrice: real, rate: real)
    requires l.amount * rate <= l.amount
    ensures l.Removed(exitPrice, l.amount * rate).Ok?
    ensures l.Removed(exitPrice, l.amount * rate).value.fill.cost == l.Cost() * rate
  {
    var qty := l.amount * rate;
    assert l.Removed(exitPrice, qty).value.fill.cost == l.price * qty;
    MulAssoc(l.price, l.amount, rate);
  }

  /** The P&L realized by removing the fraction `rate` of a leg. */
  lemma RemovedFractionPnl(l: Leg, exitPrice: real, rate: real)
    requires l.amount * rate <= l.amount
    ensures l.Removed(exitPrice, l.amount * rate).Ok?
    ensures l.Removed(exitPrice, l.amount * rate).value.fill.pnl == l.Pnl(exitPrice) * rate
  {
    var qty := l.amount * rate;
    var gain := l.side.Gain(l.price, exitPrice);
    assert l.Removed(exitPrice, qty).value.fill.pnl == gain * qty;
    MulAssoc(gain, l.amount, rate);
  }

  /** Removing no more than is held keeps a well-formed leg well formed. */
  lemma RemovedPreservesWellFormed(l: Leg, exitPrice: real, qty: real)
    requires l.WellFormed() && 0.0 <= qty <= l.amount
    ensures l.Removed(exitPrice, qty).Ok?
    ensures l.Removed(exitPrice, qty).value.rest.WellFormed()
  {
  }

  /** Removing everything that is held empties the leg and realizes its whole cost
      basis and unrealized P&L. */
  lemma RemovedAllEmpties(l: Leg, exitPrice: real)
    ensures l.Removed(exitPrice, l.amount) == Ok(Removal(Empty(l.side), Fill(l.Cost(), l.Pnl(exitPrice))))
  {
    var m := l.Removed(exitPrice, l.amount).value;
    assert m.rest == Empty(l.side);
    assert m.fill.cost == l.Cost();
    assert m.fill.pnl == l.Pnl(exitPrice);
  }

  /** Removing everything that is held at the leg's own average price empties it,
      realizes its whole cost basis and no P&L. */
  lemma RemovedAllAtEntry(l: Leg)
    ensures l.Removed(l.price, l.amount) == Ok(Removal(Empty(l.side), Fill(l.Cost(), 0.0)))
  {
    RemovedAllEmpties(l, l.price);
    assert l.Pnl(l.price) == 0.0;
  }

  /** Removal undoes an add into a leg holding nothing: adding `a` at `p` and removing
      `a` at the same price leaves the empty leg, hands back the cost paid and realizes
      no P&L. */
  lemma AddThenRemoveRoundTrip(l: Leg, p: real, a: real)
    requires l.amount == 0.0 && a != 0.0
    ensures l.Added(p, a).Removed(p, a) == Ok(Removal(Empty(l.side), Fill(p * a, 0.0)))
  {
    AddedToFlat(l, p, a);
    RemovedAllAtEntry(Leg(l.side, p, a));
    assert Leg(l.side, p, a).Cost() == p * a;
  }

  /** The mutable `_Position`: `add` and `remove` update `price` and `amount` in place. */
  class Position {
    const side: Side
    var price: real
    var amount: real

    /** The value this object currently holds. */
    function State(): Leg
      reads this
    {
      Leg(side, price, amount)
    }

    constructor (side: Side)
      ensures State() == Empty(side)
    {
      this.side := side;
      price := 0.0;
      amount := 0.0;
    }

    /** `_Position.add`: returns the cost of the fill. */
    method Add(price: real, amount: real) returns (cost: real)
      requires this.amount + amount != 0.0
      modifies this
      ensures State() == old(State()).Added(price, amount)
      ensures State().Cost() == old(State().Cost()) + cost
      ensures cost == price * amount
    {
      this.price := (this.price * this.amount + price * amount) / (this.amount + amount);
      this.amount := this.amount + amount;
      cost := price * amount;
    }

    /** `_Position.remove`: fails, changing nothing, when more than is held is asked for. */
    method Remove(price: real, amount: real) returns (r: Result<Fill>)
      modifies this
      ensures var want := old(State()).Removed(price, amount);
        if want.Ok? then r == Ok(want.value.fill) && State() == want.value.rest
        else r == Err(want.error) && State() == old(State())
    {
      if amount > this.amount {
        return Err(InsufficientPosition);
      }
      ghost var before := State();
      this.amount := this.amount - amount;
      var cost := this.price * amount;
      var pnl := side.Gain(this.price, price) * amount;
      if this.amount == 0.0 {
        this.price := 0.0;
      }
      assert before.Removed(price, amount).Ok?;
      assert before.Removed(price, amount).value.fill.cost == cost;
      assert before.Removed(price, amount).value.fill.pnl == pnl;
      assert before.Removed(price, amount).value.rest == State();
      assert before.Removed(price, amount) == Ok(Removal(State(), Fill(cost, pnl)));
      return Ok(Fill(cost, pnl));
    }
  }
}
