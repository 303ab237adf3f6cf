/** What the reservation laws give in every reachable state: no lock is ever negative, a cash account never
    goes short, sell fills and expiries never fail for want of a lock, and final statuses are final. */
module CashAccounts {
  import opened Sums
  import opened Domain
  import opened Trade
  import opened OrderSpec
  import opened LiquidationSpec
  import opened Actions
  import opened Reservations
  import opened Steps

  /** In a cash portfolio no more is locked than is held. */
  predicate Covered(pos: Position, margin: bool) {
    margin || pos.locked <= pos.quantity
  }

  ghost predicate NeverShort(positions: map<Holding, Position>, portfolios: map<Id, Portfolio>) {
    forall h | h in positions && h.portfolioId in portfolios ::
      Covered(positions[h], portfolios[h.portfolioId].isMarginEnabled)
  }

  ghost predicate SameMargin(portfolios: map<Id, Portfolio>, portfolios': map<Id, Portfolio>) {
    forall p | p in portfolios' :: p in portfolios && portfolios'[p].isMarginEnabled == portfolios[p].isMarginEnabled
  }

  lemma WriteKeepsCover(db: Db, db': Db, h: Holding, pos: Position)
    requires NeverShort(db.positions, db.portfolios) && SameMargin(db.portfolios, db'.portfolios)
    requires db'.positions == db.positions[h := pos]
    requires h.portfolioId in db.portfolios ==> Covered(pos, db.portfolios[h.portfolioId].isMarginEnabled)
    ensures NeverShort(db'.positions, db'.portfolios)
  {}

  lemma SameKeepsCover(db: Db, db': Db)
    requires NeverShort(db.positions, db.portfolios) && SameMargin(db.portfolios, db'.portfolios)
    requires db'.positions == db.positions
    ensures NeverShort(db'.positions, db'.portfolios)
  {}

  lemma PlaceKeepsCover(db: Db, dto: PlaceOrderDto, id: Id)
    requires NeverShort(db.positions, db.portfolios) && dto.quantity > 0.0 && PlaceRefusal(db, dto).None?
    ensures NeverShort(Placed(db, dto, id).positions, Placed(db, dto, id).portfolios)
  {
    hide CashToReserve, MarginToReserve, NewOrder;
    var db' := Placed(db, dto, id);
    var h := Holding(dto.portfolioId, dto.symbol);
    if dto.side.BUY? { SameKeepsCover(db, db'); } else { WriteKeepsCover(db, db', h, db'.positions[h]); }
  }

  lemma EndKeepsCover(db: Db, id: Id, final: OrderStatus)
    requires Shape(db) && NeverShort(db.positions, db.portfolios) && (final.CANCELLED? || final.EXPIRED?)
    ensures NeverShort(End(db, id, final).0.positions, End(db, id, final).0.portfolios)
  {
    hide CashHeld, MarginShare;
    if id in db.orders && IsValidTransition(db.orders[id].status, final) {
      OrderShape(db, id);
      var o, db' := db.orders[id], Released(db, db.orders[id], final);
      if o.side.BUY? {
        SameKeepsCover(db, db');
      } else {
        WriteKeepsCover(db, db', HoldingOf(o), db'.positions[HoldingOf(o)]);
      }
    }
  }

  lemma FillKeepsCover(db: Db, o: Order, dto: FillOrderDto)
    requires NeverShort(db.positions, db.portfolios) && o.portfolioId in db.portfolios && dto.quantity > 0.0
    requires o.side.SELL? ==> HoldingOf(o) in db.positions
    ensures NeverShort(Filled(db, o, dto).positions, Filled(db, o, dto).portfolios)
  {
    hide Cost, CashUsed, MarginShare, Entered, Realized;
    WriteKeepsCover(db, Filled(db, o, dto), HoldingOf(o), PositionFilled(PositionAt(db, HoldingOf(o)), o, dto));
  }

  lemma ActKeepsCover(db: Db, a: Action)
    requires Shape(db) && NeverShort(db.positions, db.portfolios)
    ensures NeverShort(Act(db, a).positions, Act(db, a).portfolios)
  {
    hide Placed, End, Filled, NeverShort;
    if FreshId(db, a) {
      match a
      case PlaceOrder(dto, id, open) =>
        if Act(db, a) != db { PlaceKeepsCover(db, dto, id); }
      case MarkOrderPending(id, before, inside) => EndKeepsCover(db, id, EXPIRED);
      case ActivateStopLimit(id) =>
      case Fill(fill) =>
        FillAllOrNothing(db, fill);
        if Act(db, a) != db { OrderShape(db, fill.orderId); FillKeepsCover(db, db.orders[fill.orderId], fill); }
      case CancelOrder(id) => EndKeepsCover(db, id, CANCELLED);
      case ExpireOrder(id) => EndKeepsCover(db, id, EXPIRED);
      case EvaluatePortfolio(pid, prices, ranking, open, id) =>
        EvaluateSteps(db, pid, prices, ranking, open, id);
    }
  }

  /** Shares an order row holds are never negative, so no holding's lock is either, and it covers every
      single order. */
  lemma LockCoversOrder(db: Db, id: Id)
    requires Shape(db) && SharesLaw(db.positions, db.orders) && id in db.orders
    ensures SharesHeld(db.orders[id]) <= Locked(db.positions, HoldingOf(db.orders[id]))
  {
    var h := HoldingOf(db.orders[id]);
    forall i | i in db.orders ensures SharesTerm(h)(i, db.orders[i]) >= 0.0 {
      assert RowOk(i, db.orders[i]);
    }
    assert Locked(db.positions, h) == Sum(db.orders, SharesTerm(h));
    SumOfNonNegatives(db.orders, SharesTerm(h));
    assert SharesTerm(h)(id, db.orders[id]) == SharesHeld(db.orders[id]);
  }

  lemma LockNotNegative(db: Db, h: Holding)
    requires RowsOk(db.orders) && SharesLaw(db.positions, db.orders)
    ensures Locked(db.positions, h) >= 0.0
  {
    forall i | i in db.orders ensures SharesTerm(h)(i, db.orders[i]) >= 0.0 {
      assert RowOk(i, db.orders[i]);
    }
    assert Locked(db.positions, h) == Sum(db.orders, SharesTerm(h));
    SumOfNonNegatives(db.orders, SharesTerm(h));
  }

  /** In every reachable state no holding's lock is negative, and in a cash portfolio it never exceeds what
      is held: a cash account never goes short. */
  lemma {:induction false} CashAccountNeverShort(db: Db, actions: seq<Action>, h: Holding)
    requires Initial(db)
    ensures NeverShort(Run(db, actions).positions, Run(db, actions).portfolios)
    ensures h in Run(db, actions).positions ==>
              && h.portfolioId in Run(db, actions).portfolios
              && 0.0 <= Run(db, actions).positions[h].locked
              && (!Run(db, actions).portfolios[h.portfolioId].isMarginEnabled ==>
                    Run(db, actions).positions[h].locked <= Run(db, actions).positions[h].quantity)
  {
    hide Act, RowsOk, OwnersOk, IndexOk, HoldingsOk, SharesLaw, CashLaw;
    ReservationsConserved(db, actions);
    LockNotNegative(Run(db, actions), h);
    if actions != [] {
      var before := actions[..|actions| - 1];
      CashAccountNeverShort(db, before, h);
      ReservationsConserved(db, before);
      ActKeepsCover(Run(db, before), actions[|actions| - 1]);
    }
  }

  /** In every reachable state a fill is never refused for want of locked shares, and never finds its
      portfolio or position missing: the only refusals left are its own quantity and price. */
  lemma FillNeverLacksLock(db: Db, actions: seq<Action>, dto: FillOrderDto)
    requires Initial(db) && dto.orderId in Run(db, actions).orders
    ensures var why := ProcessFill(Run(db, actions), dto).1;
            why.Err? ==> why.error in {QuantityNotPositive, ExceedsRequested, NegativeEntry}
  {
    hide Act, Run, Cost, Filled, SharesLaw, CashLaw;
    ReservationsConserved(db, actions);
    OrderShape(Run(db, actions), dto.orderId);
    LockCoversOrder(Run(db, actions), dto.orderId);
  }

  /** A sell fill of a cash account closes part of what is held: it never crosses zero. */
  lemma CashSellNeverCrosses(db: Db, actions: seq<Action>, dto: FillOrderDto)
    requires Initial(db) && FillStep(Run(db, actions), ProcessFill(Run(db, actions), dto).0, dto)
    ensures var now := Run(db, actions);
            var o := now.orders[dto.orderId];
            o.side.SELL? && !now.portfolios[o.portfolioId].isMarginEnabled ==>
              0.0 < dto.quantity <= PositionAt(now, HoldingOf(o)).quantity
  {
    hide Act, Run, Cost, Filled, SharesLaw, CashLaw;
    ReservationsConserved(db, actions);
    var now := Run(db, actions);
    OrderShape(now, dto.orderId);
    LockCoversOrder(now, dto.orderId);
    CashAccountNeverShort(db, actions, HoldingOf(now.orders[dto.orderId]));
  }

  /** On a well-formed database ending an order succeeds exactly when it is active, and touches no other order. */
  lemma EndSucceeds(db: Db, id: Id, final: OrderStatus)
    requires Shape(db) && id in db.orders && (final.CANCELLED? || final.EXPIRED?)
    ensures End(db, id, final).1.Ok? <==> Active(db.orders[id].status)
    ensures End(db, id, final).0.orders
         == if Active(db.orders[id].status) then db.orders[id := db.orders[id].(status := final)] else db.orders
  {
    hide PortfolioReleased, PositionsReleased;
    OrderShape(db, id);
  }

  /** Cancelling or expiring never fails on an active order, whatever happened before. */
  lemma EndNeverFails(db: Db, actions: seq<Action>, id: Id, final: OrderStatus)
    requires Initial(db) && id in Run(db, actions).orders && (final.CANCELLED? || final.EXPIRED?)
    ensures End(Run(db, actions), id, final).1.Ok? <==> Active(Run(db, actions).orders[id].status)
  {
    hide Run, End, Shape, Laws;
    ReservationsConserved(db, actions);
    EndSucceeds(Run(db, actions), id, final);
  }

  /** Once no order is active, nothing is locked: no cash in a cash portfolio, no shares anywhere. */
  lemma NothingActiveNothingLocked(db: Db)
    requires Laws(db) && forall id | id in db.orders :: !Active(db.orders[id].status)
    ensures forall pid | pid in db.portfolios && !db.portfolios[pid].isMarginEnabled ::
      db.portfolios[pid].lockedCash == 0.0
    ensures forall h | h in db.positions :: db.positions[h].locked == 0.0
  {
    forall pid | pid in db.portfolios && !db.portfolios[pid].isMarginEnabled
      ensures db.portfolios[pid].lockedCash == 0.0
    {
      assert CashLawAt(pid, db.portfolios, db.orders);
      forall id | id in db.orders ensures CashTerm(pid)(id, db.orders[id]) == 0.0 {}
      SumOfZeros(db.orders, CashTerm(pid));
    }
    forall h | h in db.positions ensures db.positions[h].locked == 0.0 {
      assert Locked(db.positions, h) == Sum(db.orders, SharesTerm(h));
      forall id | id in db.orders ensures SharesTerm(h)(id, db.orders[id]) == 0.0 {}
      SumOfZeros(db.orders, SharesTerm(h));
    }
  }

  /** Placing an order and ending it unfilled gives back the cash and the shares, but never the margin: a margin
      portfolio is left as it was exactly when the placement needed none. */
  lemma PlaceThenEnd(db: Db, dto: PlaceOrderDto, id: Id, final: OrderStatus)
    requires dto.quantity > 0.0 && id !in db.orders && PlaceRefusal(db, dto).None?
    requires (final.CANCELLED? || final.EXPIRED?)
    ensures var db' := End(Placed(db, dto, id), id, final).0;
            && (db'.portfolios == db.portfolios <==>
                (!db.portfolios[dto.portfolioId].isMarginEnabled || MarginToReserve(db, dto) == 0.0))
            && (forall h: Holding :: PositionAt(db', h) == PositionAt(db, h))
            && db'.fills == db.fills && db'.ledger == db.ledger
  {
    hide MarginToReserve, CashToReserve, ExposureIncrease;
    var o, placed := NewOrder(dto, id), Placed(db, dto, id);
    HeldWhenPlaced(dto, id);
    assert placed.orders[id] == o && MarginShare(placed.portfolios[dto.portfolioId], o, Remaining(o)) == 0.0;
    hide CashHeld, MarginShare;
    var p, p' := db.portfolios[dto.portfolioId], End(placed, id, final).0.portfolios[dto.portfolioId];
    if p.isMarginEnabled {
      assert p'.lockedMargin == p.lockedMargin + MarginToReserve(db, dto);
    } else {
      assert p' == p;
    }
  }

  predicate Final(s: OrderStatus) {
    s.FILLED? || s.CANCELLED? || s.REJECTED? || s.EXPIRED?
  }

  /** A final status is never left, and what was filled by then stays what was filled. */
  lemma {:induction false} FinalIsFinal(db: Db, actions: seq<Action>, id: Id)
    requires Shape(db) && id in db.orders && Final(db.orders[id].status)
    ensures Shape(Run(db, actions)) && id in Run(db, actions).orders
    ensures Run(db, actions).orders[id].status == db.orders[id].status
    ensures Run(db, actions).orders[id].filled == db.orders[id].filled
  {
    hide Shape, Act;
    if actions != [] {
      var before, a := Run(db, actions[..|actions| - 1]), actions[|actions| - 1];
      FinalIsFinal(db, actions[..|actions| - 1], id);
      ActKeepsShape(before, a);
      ActMoves(before, a);
      FinalNotFilled(before, a, id);
      assert OrderMoves(before.orders[id], Act(before, a).orders[id]);
    }
  }

  lemma FinalNotFilled(db: Db, a: Action, id: Id)
    requires Shape(db) && id in db.orders && Final(db.orders[id].status)
    ensures id in Act(db, a).orders && Act(db, a).orders[id].filled == db.orders[id].filled
  {
    if a.Fill? {
      FillAllOrNothing(db, a.fill);
      OrderShape(db, id);
      if a.fill.orderId in db.orders { OrderShape(db, a.fill.orderId); }
    } else {
      ActIsQuiet(db, a);
    }
  }
}
