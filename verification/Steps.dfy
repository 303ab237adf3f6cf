/** What one action may change: the order's terms never, its status along the allowed transitions only,
    and money, holdings and filled quantities only when the action is a fill. */
module Steps {
  import opened Liquidity
  import opened Domain
  import opened OrderSpec
  import opened LiquidationSpec
  import opened Actions
  import opened Reservations

  /** Same order, possibly further along. */
  predicate SameTerms(o: Order, o': Order) {
    o'.(status := o.status, filled := o.filled, isActivated := o.isActivated) == o
  }

  /** The liquidation worker cancels its own order straight from RECEIVED, outside VALID_TRANSITIONS. */
  predicate StatusMoves(o: Order, o': Order) {
    || o'.status == o.status
    || IsValidTransition(o.status, o'.status)
    || (o.isLiquidation && o.status.RECEIVED? && o'.status.CANCELLED?)
  }

  predicate OrderMoves(o: Order, o': Order) {
    SameTerms(o, o') && StatusMoves(o, o') && (o.isActivated ==> o'.isActivated)
  }

  ghost predicate OrdersMove(orders: map<Id, Order>, orders': map<Id, Order>) {
    && orders.Keys <= orders'.Keys
    && (forall id | id in orders :: OrderMoves(orders[id], orders'[id]))
    && (forall id | id in orders' && id !in orders ::
          orders'[id].filled == 0.0 && !orders'[id].isActivated
            && (orders'[id].status.ACCEPTED? || orders'[id].isLiquidation))
  }

  /** Nothing is filled. */
  ghost predicate NothingFilled(orders: map<Id, Order>, orders': map<Id, Order>) {
    forall id | id in orders && id in orders' :: orders'[id].filled == orders[id].filled
  }

  predicate SameMoney(p: Portfolio, p': Portfolio) {
    p'.(lockedCash := p.lockedCash, lockedMargin := p.lockedMargin) == p
  }

  predicate SameHolding(pos: Position, pos': Position) {
    pos'.(locked := pos.locked) == pos
  }

  /** Cash, holdings, fills and ledger stay; only locks may move. */
  ghost predicate MoneyStays(db: Db, db': Db) {
    && db'.fills == db.fills && db'.ledger == db.ledger
    && db'.portfolios.Keys == db.portfolios.Keys
    && (forall p | p in db.portfolios :: SameMoney(db.portfolios[p], db'.portfolios[p]))
    && db.positions.Keys <= db'.positions.Keys
    && (forall h | h in db'.positions :: SameHolding(PositionAt(db, h), db'.positions[h]))
  }

  ghost predicate QuietStep(db: Db, db': Db) {
    OrdersMove(db.orders, db'.orders) && NothingFilled(db.orders, db'.orders) && MoneyStays(db, db')
  }

  /** No margin reservation changes. */
  ghost predicate MarginStays(portfolios: map<Id, Portfolio>, portfolios': map<Id, Portfolio>) {
    forall p | p in portfolios && p in portfolios' :: portfolios'[p].lockedMargin == portfolios[p].lockedMargin
  }

  lemma PlacedIsQuiet(db: Db, dto: PlaceOrderDto, id: Id)
    requires id !in db.orders && dto.portfolioId in db.portfolios
    ensures QuietStep(db, Placed(db, dto, id))
  {}

  lemma AcceptedIsOwned(db: Db, dto: PlaceOrderDto)
    ensures PlaceRefusal(db, dto).None? ==> dto.portfolioId in db.portfolios
  {
    hide FreeMarginShown, MarginToReserve;
  }

  lemma PlaceIsQuiet(db: Db, dto: PlaceOrderDto, id: Id, open: bool)
    requires id !in db.orders
    ensures QuietStep(db, Place(db, dto, id, open).0)
  {
    AcceptedIsOwned(db, dto);
    hide Placed, PlaceRefusal, LacksPrice, NewOrder;
    if dto.portfolioId in db.portfolios { PlacedIsQuiet(db, dto, id); }
  }

  lemma ReleasedIsQuiet(db: Db, o: Order, final: OrderStatus)
    requires o.id in db.orders && db.orders[o.id] == o && IsValidTransition(o.status, final) && o.reservedMargin.None?
    requires o.portfolioId in db.portfolios && (o.side.SELL? ==> HoldingOf(o) in db.positions)
    ensures QuietStep(db, Released(db, o, final)) && MarginStays(db.portfolios, Released(db, o, final).portfolios)
  {}

  lemma EndIsQuiet(db: Db, id: Id, final: OrderStatus)
    requires Shape(db) && (final.CANCELLED? || final.EXPIRED?)
    ensures QuietStep(db, End(db, id, final).0) && MarginStays(db.portfolios, End(db, id, final).0.portfolios)
  {
    if id in db.orders && IsValidTransition(db.orders[id].status, final) {
      OrderShape(db, id);
      ReleasedIsQuiet(db, db.orders[id], final);
    }
  }

  lemma RewriteIsQuiet(db: Db, o: Order)
    requires o.id in db.orders && OrderMoves(db.orders[o.id], o) && o.filled == db.orders[o.id].filled
    ensures QuietStep(db, db.(orders := db.orders[o.id := o]))
    ensures MarginStays(db.portfolios, db.(orders := db.orders[o.id := o]).portfolios)
  {}

  lemma MarkPendingIsQuiet(db: Db, db': Db, id: Id)
    requires Shape(db) && MarkPendingStep(db, db', id)
    ensures QuietStep(db, db') && MarginStays(db.portfolios, db'.portfolios)
  {
    if db' == Expire(db, id).0 { EndIsQuiet(db, id, EXPIRED); }
    else if db' != db {
      OrderShape(db, id);
      RewriteIsQuiet(db, db.orders[id].(status := PENDING));
    }
  }

  lemma NothingIsQuiet(db: Db)
    ensures QuietStep(db, db) && MarginStays(db.portfolios, db.portfolios)
  {}

  lemma ActivateIsQuiet(db: Db, id: Id)
    requires Shape(db)
    ensures QuietStep(db, Activate(db, id).0) && MarginStays(db.portfolios, Activate(db, id).0.portfolios)
  {
    if id in db.orders {
      OrderShape(db, id);
      hide Shape;
      RewriteIsQuiet(db, db.orders[id].(isActivated := true));
    }
    NothingIsQuiet(db);
    hide QuietStep, MarginStays;
  }

  lemma CreatedIsQuiet(db: Db, o: Order)
    requires o.id !in db.orders && o.isLiquidation && !o.isActivated && o.filled == 0.0
    ensures QuietStep(db, Created(db, o))
  {}

  lemma CancelledIsQuiet(db: Db, pid: Id)
    requires Shape(db)
    ensures QuietStep(db, CancelLiquidations(db, pid))
  {
    var db' := CancelLiquidations(db, pid);
    forall id | id in db.orders
      ensures OrderMoves(db.orders[id], db'.orders[id]) && db'.orders[id].filled == db.orders[id].filled
    {
      OrderShape(db, id);
    }
  }

  lemma EvaluationIsQuiet(db: Db, db': Db, pid: Id, prices: map<Symbol, real>, newId: Id)
    requires Shape(db) && newId !in db.orders && EvaluationStep(db, db', pid, prices, newId)
    ensures QuietStep(db, db') && db'.portfolios == db.portfolios
  {
    if db' == CancelLiquidations(db, pid) {
      CancelledIsQuiet(db, pid);
    } else if db' != db {
      CreatedIsQuiet(db, LiquidationOrder(db, pid, newId, TopCandidate(db, pid, prices)));
    }
  }

  lemma ActIsQuiet(db: Db, a: Action)
    requires Shape(db) && !a.Fill?
    ensures QuietStep(db, Act(db, a))
    ensures !a.PlaceOrder? ==> MarginStays(db.portfolios, Act(db, a).portfolios)
  {
    hide QuietStep, MarginStays, Shape, Place, MarkPending, OrderSpec.Activate, End, Evaluate;
    NothingIsQuiet(db);
    if FreshId(db, a) {
      match a
      case PlaceOrder(dto, id, open) => PlaceIsQuiet(db, dto, id, open);
      case MarkOrderPending(id, before, inside) =>
        MarkPendingSteps(db, id, before, inside);
        MarkPendingIsQuiet(db, Act(db, a), id);
      case ActivateStopLimit(id) => ActivateIsQuiet(db, id);
      case CancelOrder(id) => EndIsQuiet(db, id, CANCELLED);
      case ExpireOrder(id) => EndIsQuiet(db, id, EXPIRED);
      case EvaluatePortfolio(pid, prices, ranking, open, id) =>
        EvaluateSteps(db, pid, prices, ranking, open, id);
        EvaluationIsQuiet(db, Act(db, a), pid, ranking, id);
    }
  }

  /** An applied fill, seen as a whole. */
  ghost predicate FillStep(db: Db, db': Db, dto: FillOrderDto) {
    && dto.orderId in db.orders && dto.quantity > 0.0
    && var o := db.orders[dto.orderId];
    && o.portfolioId in db.portfolios && Fillable(o.status) && o.filled + dto.quantity <= o.requested
    && FillKey(o.id, dto.execution) !in db.fills && Cost(dto) >= 0.0
    && db' == Filled(db, o, dto)
  }

  /** A fill either changes nothing at all or is applied as a whole. */
  lemma FillAllOrNothing(db: Db, dto: FillOrderDto)
    requires Shape(db)
    ensures ProcessFill(db, dto).0 == db || FillStep(db, ProcessFill(db, dto).0, dto)
  {
    if dto.orderId in db.orders { OrderShape(db, dto.orderId); }
  }

  lemma FilledMoves(db: Db, db': Db, dto: FillOrderDto)
    requires Shape(db) && FillStep(db, db', dto)
    ensures OrdersMove(db.orders, db'.orders) && MarginStays(db.portfolios, db'.portfolios)
  {
    OrderShape(db, dto.orderId);
  }

  /** Every step of every run moves an order only along VALID_TRANSITIONS, apart from the liquidation
      worker's own cancellation, and never touches its terms; margin once locked is never released. */
  lemma ActMoves(db: Db, a: Action)
    requires Shape(db)
    ensures OrdersMove(db.orders, Act(db, a).orders)
    ensures !a.PlaceOrder? ==> MarginStays(db.portfolios, Act(db, a).portfolios)
  {
    if a.Fill? {
      FillAllOrNothing(db, a.fill);
      if FreshId(db, a) && Act(db, a) != db { FilledMoves(db, Act(db, a), a.fill); }
    } else {
      ActIsQuiet(db, a);
    }
  }
}
