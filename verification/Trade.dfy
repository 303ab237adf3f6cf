/** Average-cost accounting of one signed trade. A buy adds +quantity and a sell adds -quantity; both
    services follow this one rule: a trade away from zero averages the entry price, a trade towards
    zero realizes profit at the old entry price, and what crosses zero starts a new entry. */
module Trade {
  import opened Prelude
  import opened Domain

  function SameDirection(quantity: real, d: real): bool {
    (quantity >= 0.0 && d > 0.0) || (quantity <= 0.0 && d < 0.0)
  }

  function Averaged(quantity: real, average: real, d: real, price: real): real
    requires SameDirection(quantity, d)
  {
    (Abs(quantity) * average + Abs(d) * price) / (Abs(quantity) + Abs(d))
  }

  /** Profit realized by a trade of d against a position held at `average`. */
  function Realized(p: Position, d: real, price: real): real {
    if SameDirection(p.quantity, d) then 0.0
    else
      var closed := Min(Abs(p.quantity), Abs(d));
      if p.quantity > 0.0 then (price - p.average) * closed else (p.average - price) * closed
  }

  function Entered(p: Position, d: real, price: real): real {
    if SameDirection(p.quantity, d) then Averaged(p.quantity, p.average, d, price)
    else if Abs(d) > Abs(p.quantity) then price
    else p.average
  }

  /** The position after a trade; its locked quantity is not the trade's business. */
  function Traded(p: Position, d: real, price: real): Position {
    Position(p.quantity + d, p.locked, Entered(p, d, price), p.realizedPnl + Realized(p, d, price),
             if p.quantity + d == 0.0 then CLOSED else OPEN)
  }

  /** Cost basis carried by a position, net of the profit already taken out of it. */
  function Basis(p: Position): real {
    p.quantity * p.average - p.realizedPnl
  }

  lemma AveragedCost(quantity: real, average: real, d: real, price: real)
    requires SameDirection(quantity, d)
    ensures (quantity + d) * Averaged(quantity, average, d, price) == quantity * average + d * price
  {
    var total := Abs(quantity) * average + Abs(d) * price;
    var size := Abs(quantity) + Abs(d);
    assert total / size * size == total;
    if d > 0.0 {
      assert quantity + d == size;
    } else {
      assert quantity + d == -size;
      NegatedProduct(total / size, size);
    }
  }

  lemma NegatedProduct(x: real, size: real)
    ensures (-size) * x == -(x * size)
  {}

  /** Closing part of a position at `price`, and crossing zero, move the basis by d*price as well. */
  lemma ClosedCost(quantity: real, average: real, d: real, price: real)
    ensures (quantity + d) * average - (-d) * (price - average) == quantity * average + d * price
    ensures (quantity + d) * price - quantity * (price - average) == quantity * average + d * price
    ensures (average - price) * d == (-d) * (price - average)
    ensures (average - price) * (-quantity) == quantity * (price - average)
    ensures (price - average) * (-d) == (-d) * (price - average)
    ensures (price - average) * quantity == quantity * (price - average)
  {}

  /** Through every long, short and zero-crossing case a trade moves the net basis by exactly the
      cash it moves: what the account pays is what the position carries. */
  lemma TradeConservesBasis(p: Position, d: real, price: real)
    requires d != 0.0
    ensures Basis(Traded(p, d, price)) == Basis(p) + d * price
  {
    if SameDirection(p.quantity, d) {
      AveragedCost(p.quantity, p.average, d, price);
    } else {
      ClosedCost(p.quantity, p.average, d, price);
    }
  }
}
