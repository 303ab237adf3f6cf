/** Locking shares for a sell order and adjusting a position by a fill, inside the caller's transaction. */
module PositionServices {
  import opened Prelude
  import opened Liquidity
  import opened Domain
  import opened Trade
  import opened Store

  lemma WholeQuotient(q: real, price: real)
    requires q > 0.0
    ensures (q * price) / q == price
  {
    var x := (q * price) / q;
    assert x * q == q * price;
    assert (x - price) * q == 0.0;
  }

  lemma FromZero(average: real, d: real, price: real)
    requires d != 0.0
    ensures SameDirection(0.0, d) && Averaged(0.0, average, d, price) == price
  {
    assert Abs(0.0) * average == 0.0;
    WholeQuotient(Abs(d), price);
  }

  /** Adding to what is held, in either direction. */
  lemma Adding(quantity: real, average: real, d: real, price: real, size: real, moved: real)
    requires SameDirection(quantity, d) && size == Abs(quantity) && moved == Abs(d)
    ensures Averaged(quantity, average, d, price) == (size * average + moved * price) / (size + moved)
  {
    SameTerms(Abs(quantity), average, size, Abs(d), price, moved);
  }

  lemma SameTerms(a: real, x: real, a': real, b: real, y: real, b': real)
    requires a == a' && b == b' && a + b > 0.0
    ensures (a * x + b * y) / (a + b) == (a' * x + b' * y) / (a' + b')
  {}

  /** Taking from what is held: a part of it, or all of it and more. */
  lemma Taking(p: Position, d: real, price: real)
    requires (p.quantity < 0.0 < d) || (d < 0.0 < p.quantity)
    ensures Abs(d) <= Abs(p.quantity) ==> Entered(p, d, price) == p.average
    ensures Abs(d) > Abs(p.quantity) ==> Entered(p, d, price) == price
    ensures Realized(p, d, price)
         == (if p.quantity > 0.0 then price - p.average else p.average - price) * Min(Abs(d), Abs(p.quantity))
  {}

  /** The three things a sale can be, in the terms the service computes them. */
  lemma Selling(p: Position, quantity: real, price: real)
    requires quantity > 0.0
    ensures p.quantity <= 0.0 ==> Realized(p, -quantity, price) == 0.0
    ensures p.quantity == 0.0 ==> Entered(p, -quantity, price) == price
    ensures p.quantity > 0.0 && quantity <= p.quantity ==>
        Realized(p, -quantity, price) == (price - p.average) * quantity && Entered(p, -quantity, price) == p.average
    ensures p.quantity > 0.0 && quantity > p.quantity ==>
        Realized(p, -quantity, price) == (price - p.average) * p.quantity && Entered(p, -quantity, price) == price
  {
    hide Averaged;
    if p.quantity == 0.0 {
      FromZero(p.average, -quantity, price);
    } else if p.quantity > 0.0 {
      hide Realized, Entered;
      Taking(p, -quantity, price);
    }
  }

  lemma SellingShort(p: Position, quantity: real, price: real, size: real)
    requires quantity > 0.0 && p.quantity < 0.0 && size == Abs(p.quantity)
    ensures Entered(p, -quantity, price) == (size * p.average + quantity * price) / (size + quantity)
  {
    hide Averaged;
    Adding(p.quantity, p.average, -quantity, price, size, quantity);
  }

  class PositionService {

    /** The position when enough of it is free; a margin account needs none. */
    static method CheckPosition(tx: Database, pid: Id, symbol: Symbol, required: real)
      returns (r: Result<Option<Position>, Failure>)
      ensures pid !in tx.portfolios ==> r == Err(NotFound)
      ensures pid in tx.portfolios ==>
        var h, margin := Holding(pid, symbol), tx.portfolios[pid].isMarginEnabled;
        r == if h in tx.positions && (margin || tx.positions[h].quantity - tx.positions[h].locked >= required)
          then Ok(Some(tx.positions[h]))
             else if h !in tx.positions && margin then Ok(None)
             else Err(InsufficientQuantity)
    {
      if pid !in tx.portfolios { return Err(NotFound); }
      var portfolio := tx.portfolios[pid];
      var h := Holding(pid, symbol);
      if h !in tx.positions {
        if portfolio.isMarginEnabled { return Ok(None); }
        return Err(InsufficientQuantity);
      }
      var position := tx.positions[h];
      var available := position.quantity - position.locked;
      if available < required && !portfolio.isMarginEnabled { return Err(InsufficientQuantity); }
      return Ok(Some(position));
    }

    /** Locks shares, opening an empty position for a margin account that has none. */
    static method LockPosition(tx: Database, pid: Id, symbol: Symbol, quantity: real)
      returns (r: Result<Position, Failure>)
      modifies tx
      ensures r.Ok? <==> pid in old(tx.portfolios) && var h := Holding(pid, symbol);
                           old(tx.portfolios)[pid].isMarginEnabled
                           || (h in old(tx.positions)
                               && old(tx.positions)[h].quantity - old(tx.positions)[h].locked >= quantity)
      ensures r.Ok? ==>
        var h, held := Holding(pid, symbol), PositionAt(old(tx.State()), Holding(pid, symbol));
        tx.State() == old(tx.State()).(positions := old(tx.positions)[h := held.(locked := held.locked + quantity)])
      ensures r.Err? ==>
          tx.State() == old(tx.State())
            && r.error == (if pid in old(tx.portfolios) then InsufficientQuantity else NotFound)
    {
      var checked := CheckPosition(tx, pid, symbol, quantity);
      if checked.Err? { return Err(checked.error); }
      var h := Holding(pid, symbol);
      var position;
      if checked.value.None? {
        position := Position(0.0, quantity, 0.0, 0.0, OPEN);
      } else {
        position := checked.value.value.(locked := checked.value.value.locked + quantity);
      }
      tx.SetPosition(h, position);
      return Ok(position);
    }

    /** A buy: averages up a long position, covers a short one, and turns it long past zero. */
    static method AdjustOnBuy(tx: Database, pid: Id, symbol: Symbol, quantity: real, price: real)
      returns (realized: real)
      requires quantity > 0.0
      modifies tx
      ensures var h, held := Holding(pid, symbol), PositionAt(old(tx.State()), Holding(pid, symbol));
              && tx.State() == old(tx.State()).(positions := old(tx.positions)[h := Traded(held, quantity, price)])
              && realized == Realized(held, quantity, price)
    {
      var h := Holding(pid, symbol);
      var newQuantity, newAverage := quantity, price;
      realized := 0.0;
      if h !in tx.positions {
        FromZero(0.0, quantity, price);
        tx.SetPosition(h, Position(newQuantity, 0.0, newAverage, 0.0, OPEN));
      } else {
        var position := tx.positions[h];
        newQuantity := position.quantity + quantity;
        if position.quantity >= 0.0 {
          if position.quantity == 0.0 {
            FromZero(position.average, quantity, price);
            newAverage := price;
          } else {
            Adding(position.quantity, position.average, quantity, price, position.quantity, quantity);
            newAverage := (position.quantity * position.average + quantity * price) / newQuantity;
          }
        } else {
          Taking(position, quantity, price);
          var absQty := Abs(position.quantity);
          if quantity <= absQty {
            realized := (position.average - price) * quantity;
            newAverage := position.average;
          } else {
            realized := (position.average - price) * absQty;
            newAverage := price;
          }
        }
        assert newAverage == Entered(position, quantity, price) && realized == Realized(position, quantity, price);
        hide Entered, Realized;
        var newStatus := if newQuantity == 0.0 then CLOSED else OPEN;
        tx.SetPosition(h,
                       Position(newQuantity, position.locked, newAverage, position.realizedPnl + realized, newStatus));
      }
    }

    /** A sell: closes a long position or adds to a short one, and frees the lock it was placed under. */
    static method AdjustOnSell(tx: Database, pid: Id, symbol: Symbol, quantity: real, price: real)
      returns (r: Result<real, Failure>)
      requires quantity > 0.0
      modifies tx
      ensures var h, positions := Holding(pid, symbol), old(tx.positions);
              if h !in positions then r == Err(NotFound) && tx.State() == old(tx.State())
              else if positions[h].locked < quantity then r == Err(InsufficientLocked) && tx.State() == old(tx.State())
              else r == Ok(Realized(positions[h], -quantity, price))
                   && tx.State() == old(tx.State()).(positions :=
                        positions[h :=
                          Traded(positions[h], -quantity, price).(locked := positions[h].locked - quantity)])
    {
      var h := Holding(pid, symbol);
      if h !in tx.positions { return Err(NotFound); }
      var position := tx.positions[h];
      if position.locked < quantity { return Err(InsufficientLocked); }
      hide Entered, Realized;
      Selling(position, quantity, price);
      var newQuantity, newAverage, realized := position.quantity - quantity, position.average, 0.0;
      if position.quantity <= 0.0 {
        if position.quantity == 0.0 {
          newAverage := price;
        } else {
          var absQty := Abs(position.quantity);
          SellingShort(position, quantity, price, absQty);
          newAverage := (absQty * position.average + quantity * price) / (absQty + quantity);
        }
      } else if quantity <= position.quantity {
        realized := (price - position.average) * quantity;
      } else {
        realized := (price - position.average) * position.quantity;
        newAverage := price;
      }
      var newStatus := if newQuantity == 0.0 then CLOSED else OPEN;
      tx.SetPosition(h,
                     Position(newQuantity, position.locked - quantity, newAverage, position.realizedPnl + realized,
                              newStatus));
      return Ok(realized);
    }
  }
}
