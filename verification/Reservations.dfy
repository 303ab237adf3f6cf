/** What every run keeps: the shape of the rows, and the two reservation laws - the cash and the shares
    a portfolio has locked are exactly what its active orders still hold. */
module Reservations {
  import opened Sums
  import opened Liquidity
  import opened Domain
  import opened OrderSpec
  import opened LiquidationSpec
  import opened Actions

  // ---- shape of the rows ---------------------------------------------------------------------

  predicate QuantitiesOk(o: Order) {
    && 0.0 < o.requested && 0.0 <= o.filled <= o.requested
    && (o.status.PARTIALLY_FILLED? ==> 0.0 < o.filled < o.requested)
    && (o.status.FILLED? <==> o.filled == o.requested)
    && (o.status.RECEIVED? || o.status.VALIDATED? || o.status.ACCEPTED? || o.status.PENDING? ==> o.filled == 0.0)
  }

  /** A liquidation order is created RECEIVED and can only be cancelled; no other order is ever RECEIVED. */
  predicate OriginOk(o: Order) {
    && o.reservedMargin.None?
    && (o.isLiquidation ==> (o.status.RECEIVED? || o.status.CANCELLED?) && o.filled == 0.0 && o.key.Round?)
    && (!o.isLiquidation ==> !o.status.RECEIVED? && !o.status.VALIDATED?)
    && (!o.isLiquidation && HasLimit(o.kind) ==> o.limitPrice.Some?)
    && (!o.isLiquidation && HasLimit(o.kind) && o.side.BUY? ==> o.reservationPrice == o.limitPrice)
    && (!o.isLiquidation && o.side.BUY? ==> o.reservationPrice.Some?)
    && (!o.isLiquidation && (o.kind.STOP? || o.kind.STOP_LIMIT?) ==> o.stopPrice.Some?)
  }

  predicate RowOk(id: Id, o: Order) {
    o.id == id && QuantitiesOk(o) && OriginOk(o)
  }

  ghost predicate RowsOk(orders: map<Id, Order>) {
    forall id | id in orders :: RowOk(id, orders[id])
  }

  /** Every order belongs to its portfolio's user. */
  predicate OwnerOk(o: Order, portfolios: map<Id, Portfolio>) {
    o.portfolioId in portfolios && portfolios[o.portfolioId].userId == o.userId
  }

  ghost predicate OwnersOk(orders: map<Id, Order>, portfolios: map<Id, Portfolio>) {
    forall id | id in orders :: OwnerOk(orders[id], portfolios)
  }

  /** The index on (user, idempotency key) names exactly the orders. */
  ghost predicate IndexOk(orders: map<Id, Order>, byKey: map<(Id, IdempotencyKey), Id>) {
    && (forall id | id in orders ::
        (orders[id].userId, orders[id].key) in byKey && byKey[(orders[id].userId, orders[id].key)] == id)
    && (forall k | k in byKey :: byKey[k] in orders && (orders[byKey[k]].userId, orders[byKey[k]].key) == k)
  }

  /** Every active sell order has its position row. */
  predicate HoldingOk(o: Order, positions: map<Holding, Position>) {
    o.side.SELL? && Active(o.status) ==> HoldingOf(o) in positions
  }

  ghost predicate HoldingsOk(orders: map<Id, Order>, positions: map<Holding, Position>) {
    forall id | id in orders :: HoldingOk(orders[id], positions)
  }

  predicate PositionOk(pos: Position) {
    pos.status.CLOSED? ==> pos.quantity == 0.0
  }

  ghost predicate PositionsOk(positions: map<Holding, Position>, portfolios: map<Id, Portfolio>) {
    forall h | h in positions :: h.portfolioId in portfolios && PositionOk(positions[h])
  }

  ghost predicate Shape(db: Db) {
    && RowsOk(db.orders)
    && OwnersOk(db.orders, db.portfolios)
    && IndexOk(db.orders, db.byKey)
    && HoldingsOk(db.orders, db.positions)
    && PositionsOk(db.positions, db.portfolios)
  }

  lemma OrderShape(db: Db, id: Id)
    requires Shape(db) && id in db.orders
    ensures RowOk(id, db.orders[id]) && OwnerOk(db.orders[id], db.portfolios) && HoldingOk(db.orders[id], db.positions)
  {}

  ghost predicate SameOwners(portfolios: map<Id, Portfolio>, portfolios': map<Id, Portfolio>) {
    && portfolios'.Keys == portfolios.Keys
    && forall p | p in portfolios :: portfolios'[p].userId == portfolios[p].userId
                                   && portfolios'[p].isMarginEnabled == portfolios[p].isMarginEnabled
  }

  /** Rewriting the row of an existing order. */
  lemma RewriteKeepsShape(db: Db, db': Db, o: Order)
    requires Shape(db) && o.id in db.orders && RowOk(o.id, o)
    requires o.userId == db.orders[o.id].userId && o.key == db.orders[o.id].key
    requires o.portfolioId == db.orders[o.id].portfolioId
    requires HoldingOk(o, db'.positions)
    requires db'.orders == db.orders[o.id := o] && db'.byKey == db.byKey
    requires SameOwners(db.portfolios, db'.portfolios)
    requires db.positions.Keys <= db'.positions.Keys && PositionsOk(db'.positions, db.portfolios)
    ensures Shape(db')
  {
    assert OwnerOk(db.orders[o.id], db.portfolios);
  }

  /** Inserting a new order under a new key. */
  lemma InsertKeepsShape(db: Db, db': Db, o: Order)
    requires Shape(db) && o.id !in db.orders && RowOk(o.id, o) && (o.userId, o.key) !in db.byKey
    requires HoldingOk(o, db'.positions) && OwnerOk(o, db.portfolios)
    requires db'.orders == db.orders[o.id := o] && db'.byKey == db.byKey[(o.userId, o.key) := o.id]
    requires SameOwners(db.portfolios, db'.portfolios)
    requires db.positions.Keys <= db'.positions.Keys && PositionsOk(db'.positions, db.portfolios)
    ensures Shape(db')
  {
  }

  lemma PlacedKeepsShape(db: Db, dto: PlaceOrderDto, id: Id)
    requires Shape(db) && id !in db.orders && dto.portfolioId in db.portfolios
    requires db.portfolios[dto.portfolioId].userId == dto.userId
    requires dto.quantity > 0.0 && !LacksPrice(dto) && (dto.userId, dto.key) !in db.byKey
    ensures Shape(Placed(db, dto, id))
  {
    InsertKeepsShape(db, Placed(db, dto, id), NewOrder(dto, id));
  }

  lemma PlaceKeepsShape(db: Db, dto: PlaceOrderDto, id: Id, open: bool)
    requires Shape(db) && id !in db.orders
    ensures Shape(Place(db, dto, id, open).0)
  {
    if dto.quantity > 0.0 && !LacksPrice(dto) && open && (dto.userId, dto.key) !in db.byKey {
      if PlaceRefusal(db, dto).None? { PlacedKeepsShape(db, dto, id); }
    }
  }

  lemma ReleasedKeepsShape(db: Db, id: Id, final: OrderStatus)
    requires Shape(db) && id in db.orders && Active(db.orders[id].status) && (final.CANCELLED? || final.EXPIRED?)
    ensures Shape(Released(db, db.orders[id], final))
  {
    OrderShape(db, id);
    var o := db.orders[id];
    RewriteKeepsShape(db, Released(db, o, final), o.(status := final));
  }

  lemma EndKeepsShape(db: Db, id: Id, final: OrderStatus)
    requires Shape(db) && (final.CANCELLED? || final.EXPIRED?)
    ensures Shape(End(db, id, final).0)
  {
    if id in db.orders && IsValidTransition(db.orders[id].status, final) {
      OrderShape(db, id);
      ReleasedKeepsShape(db, id, final);
    }
  }

  lemma FilledKeepsShape(db: Db, o: Order, dto: FillOrderDto)
    requires Shape(db) && dto.orderId in db.orders && o == db.orders[dto.orderId]
    requires Fillable(o.status) && dto.quantity > 0.0 && o.filled + dto.quantity <= o.requested
    ensures Shape(Filled(db, o, dto))
  {
    OrderShape(db, dto.orderId);
    RewriteKeepsShape(db, Filled(db, o, dto), AfterFill(o, dto.quantity));
  }

  lemma ProcessFillKeepsShape(db: Db, dto: FillOrderDto)
    requires Shape(db)
    ensures Shape(ProcessFill(db, dto).0)
  {
    if dto.quantity > 0.0 && dto.orderId in db.orders && !FillIgnored(db, dto) && FillRefusal(db, dto).None? {
      OrderShape(db, dto.orderId);
      FilledKeepsShape(db, db.orders[dto.orderId], dto);
    }
  }

  lemma PendingKeepsShape(db: Db, id: Id)
    requires Shape(db) && id in db.orders && db.orders[id].status.ACCEPTED?
    ensures Shape(db.(orders := db.orders[id := db.orders[id].(status := PENDING)]))
  {
    OrderShape(db, id);
    var o := db.orders[id].(status := PENDING);
    RewriteKeepsShape(db, db.(orders := db.orders[id := o]), o);
  }

  lemma MarkPendingKeepsShape(db: Db, db': Db, id: Id)
    requires Shape(db) && MarkPendingStep(db, db', id)
    ensures Shape(db')
  {
    if db' == Expire(db, id).0 { EndKeepsShape(db, id, EXPIRED); }
    else if db' != db { PendingKeepsShape(db, id); }
  }

  lemma ActivateKeepsShape(db: Db, id: Id)
    requires Shape(db)
    ensures Shape(Activate(db, id).0)
  {
    if id in db.orders {
      OrderShape(db, id);
      var o := db.orders[id].(isActivated := true);
      RewriteKeepsShape(db, db.(orders := db.orders[id := o]), o);
    }
  }

  lemma LiquidationOrderOk(db: Db, pid: Id, id: Id, top: Candidate)
    requires pid in db.portfolios && top.quantity != 0.0
    ensures RowOk(id, LiquidationOrder(db, pid, id, top)) && LiquidationOrder(db, pid, id, top).status.RECEIVED?
    ensures OwnerOk(LiquidationOrder(db, pid, id, top), db.portfolios)
  {}

  lemma CancelledKeepsShape(db: Db, pid: Id)
    requires Shape(db)
    ensures Shape(CancelLiquidations(db, pid))
  {
    var db' := CancelLiquidations(db, pid);
    forall i | i in db'.orders
      ensures RowOk(i, db'.orders[i]) && OwnerOk(db'.orders[i], db'.portfolios)
      ensures HoldingOk(db'.orders[i], db'.positions)
    {
      OrderShape(db, i);
    }
  }

  lemma EvaluationKeepsShape(db: Db, db': Db, pid: Id, prices: map<Symbol, real>, newId: Id)
    requires Shape(db) && newId !in db.orders && EvaluationStep(db, db', pid, prices, newId)
    ensures Shape(db')
  {
    if db' == CancelLiquidations(db, pid) {
      CancelledKeepsShape(db, pid);
    } else if db' != db {
      var top := TopCandidate(db, pid, prices);
      TopQuantity(db, pid, prices, top);
      LiquidationOrderOk(db, pid, newId, top);
      InsertKeepsShape(db, db', LiquidationOrder(db, pid, newId, top));
    }
  }

  lemma TopQuantity(db: Db, pid: Id, prices: map<Symbol, real>, top: Candidate)
    requires top in Candidates(db, pid, prices)
    ensures top.quantity != 0.0
  {
    CandidateHolding(db, pid, prices, top);
    QuantityKept(top.symbol, db.positions[Holding(pid, top.symbol)].quantity, prices);
  }

  lemma QuantityKept(symbol: Symbol, quantity: real, prices: map<Symbol, real>)
    ensures CandidateOf(symbol, quantity, prices).quantity == quantity
  {}

  lemma ActKeepsShape(db: Db, a: Action)
    requires Shape(db)
    ensures Shape(Act(db, a))
  {
    if FreshId(db, a) {
      match a
      case PlaceOrder(dto, id, open) => PlaceKeepsShape(db, dto, id, open);
      case MarkOrderPending(id, before, inside) =>
        MarkPendingSteps(db, id, before, inside);
        MarkPendingKeepsShape(db, Act(db, a), id);
      case ActivateStopLimit(id) => ActivateKeepsShape(db, id);
      case Fill(fill) => ProcessFillKeepsShape(db, fill);
      case CancelOrder(id) => EndKeepsShape(db, id, CANCELLED);
      case ExpireOrder(id) => EndKeepsShape(db, id, EXPIRED);
      case EvaluatePortfolio(pid, prices, ranking, open, id) =>
        EvaluateSteps(db, pid, prices, ranking, open, id);
        EvaluationKeepsShape(db, Act(db, a), pid, ranking, id);
    }
  }

  // ---- the reservation laws ------------------------------------------------------------------

  function CashTerm(pid: Id): (Id, Order) -> real {
    (id: Id, o: Order) => if o.portfolioId == pid then CashHeld(o) else 0.0
  }

  function SharesTerm(h: Holding): (Id, Order) -> real {
    (id: Id, o: Order) => if HoldingOf(o) == h then SharesHeld(o) else 0.0
  }

  ghost predicate CashLawAt(pid: Id, portfolios: map<Id, Portfolio>, orders: map<Id, Order>)
    requires pid in portfolios
  {
    portfolios[pid].isMarginEnabled || portfolios[pid].lockedCash == Sum(orders, CashTerm(pid))
  }

  /** Locked cash of a cash portfolio is what its active buy orders hold. */
  ghost predicate CashLaw(portfolios: map<Id, Portfolio>, orders: map<Id, Order>) {
    forall pid | pid in portfolios :: CashLawAt(pid, portfolios, orders)
  }

  function Locked(positions: map<Holding, Position>, h: Holding): real {
    if h in positions then positions[h].locked else 0.0
  }

  /** Locked shares of every holding are what its active sell orders hold. */
  ghost predicate SharesLaw(positions: map<Holding, Position>, orders: map<Id, Order>) {
    forall h: Holding :: Locked(positions, h) == Sum(orders, SharesTerm(h))
  }

  ghost predicate Laws(db: Db) {
    CashLaw(db.portfolios, db.orders) && SharesLaw(db.positions, db.orders)
  }

  /** What order row `id` holds before a write. */
  function CashBefore(orders: map<Id, Order>, id: Id): real {
    if id in orders then CashHeld(orders[id]) else 0.0
  }

  function SharesBefore(orders: map<Id, Order>, id: Id): real {
    if id in orders then SharesHeld(orders[id]) else 0.0
  }

  /** Writing an order row keeps the cash law when its portfolio's lock moves with what the row holds. */
  lemma WriteKeepsCashLaw(portfolios: map<Id, Portfolio>, portfolios': map<Id, Portfolio>, orders: map<Id, Order>,
                          o: Order)
    requires CashLaw(portfolios, orders) && o.portfolioId in portfolios
    requires o.id in orders ==> orders[o.id].portfolioId == o.portfolioId
    requires o.portfolioId in portfolios' && portfolios' == portfolios[o.portfolioId := portfolios'[o.portfolioId]]
    requires portfolios'[o.portfolioId].isMarginEnabled == portfolios[o.portfolioId].isMarginEnabled
    requires !portfolios[o.portfolioId].isMarginEnabled ==>
               portfolios'[o.portfolioId].lockedCash == portfolios[o.portfolioId].lockedCash - CashBefore(orders, o.id)
                 + CashHeld(o)
    ensures CashLaw(portfolios', orders[o.id := o])
  {
    forall pid | pid in portfolios' ensures CashLawAt(pid, portfolios', orders[o.id := o]) {
      assert CashLawAt(pid, portfolios, orders);
      SumWrite(orders, o.id, o, CashTerm(pid));
    }
  }

  lemma WriteKeepsSharesLaw(positions: map<Holding, Position>, positions': map<Holding, Position>,
                            orders: map<Id, Order>, o: Order)
    requires SharesLaw(positions, orders)
    requires o.id in orders ==> HoldingOf(orders[o.id]) == HoldingOf(o)
    requires forall h: Holding | h != HoldingOf(o) :: Locked(positions', h) == Locked(positions, h)
    requires Locked(positions', HoldingOf(o)) == Locked(positions, HoldingOf(o)) - SharesBefore(orders, o.id)
      + SharesHeld(o)
    ensures SharesLaw(positions', orders[o.id := o])
  {
    forall h: Holding ensures Locked(positions', h) == Sum(orders[o.id := o], SharesTerm(h)) {
      assert Locked(positions, h) == Sum(orders, SharesTerm(h));
      SumWrite(orders, o.id, o, SharesTerm(h));
    }
  }

  /** Cash still held after q of an order's remaining quantity is filled, when the order stays active. */
  lemma HeldAfterFill(o: Order, q: real)
    requires Fillable(o.status) && 0.0 < q <= Remaining(o)
    ensures CashHeld(AfterFill(o, q)) == CashHeld(o) - CashUsed(o, q)
    ensures SharesHeld(AfterFill(o, q)) == SharesHeld(o) - SharesUsed(o, q)
  {
    PartOfHeld(o.requested, o.filled, q, o.reservationPrice.GetOr(0.0));
  }

  lemma PartOfHeld(requested: real, filled: real, q: real, price: real)
    ensures (requested - (filled + q)) * price == (requested - filled) * price - q * price
    ensures filled + q == requested ==> (requested - filled) * price - q * price == 0.0
  {
    if filled + q == requested { assert requested - filled == q; }
  }

  lemma PlacedKeepsLaws(db: Db, dto: PlaceOrderDto, id: Id)
    requires Laws(db) && id !in db.orders && dto.portfolioId in db.portfolios
    ensures Laws(Placed(db, dto, id))
  {
    var o := NewOrder(dto, id);
    HeldWhenPlaced(dto, id);
    WriteKeepsCashLaw(db.portfolios, Placed(db, dto, id).portfolios, db.orders, o);
    WriteKeepsSharesLaw(db.positions, Placed(db, dto, id).positions, db.orders, o);
  }

  lemma HeldWhenPlaced(dto: PlaceOrderDto, id: Id)
    ensures CashHeld(NewOrder(dto, id)) == CashToReserve(dto)
    ensures SharesHeld(NewOrder(dto, id)) == (if dto.side.SELL? then dto.quantity else 0.0)
  {}

  lemma ReleasedKeepsCashLaw(db: Db, o: Order, final: OrderStatus)
    requires CashLaw(db.portfolios, db.orders) && o.id in db.orders && db.orders[o.id] == o && Active(o.status)
    requires !Active(final)
    requires o.portfolioId in db.portfolios && HoldingOk(o, db.positions) && Remaining(o) > 0.0
    ensures CashLaw(Released(db, o, final).portfolios, Released(db, o, final).orders)
  {
    hide PositionsReleased, SharesHeld;
    WriteKeepsCashLaw(db.portfolios, Released(db, o, final).portfolios, db.orders, o.(status := final));
  }

  lemma ReleasedKeepsSharesLaw(db: Db, o: Order, final: OrderStatus)
    requires SharesLaw(db.positions, db.orders) && o.id in db.orders && db.orders[o.id] == o && Active(o.status)
    requires !Active(final)
    requires o.portfolioId in db.portfolios && HoldingOk(o, db.positions) && Remaining(o) > 0.0
    ensures SharesLaw(Released(db, o, final).positions, Released(db, o, final).orders)
  {
    hide PortfolioReleased, CashHeld;
    WriteKeepsSharesLaw(db.positions, Released(db, o, final).positions, db.orders, o.(status := final));
  }

  lemma EndKeepsLaws(db: Db, id: Id, final: OrderStatus)
    requires Shape(db) && Laws(db) && (final.CANCELLED? || final.EXPIRED?)
    ensures Laws(End(db, id, final).0)
  {
    if id in db.orders && IsValidTransition(db.orders[id].status, final) {
      OrderShape(db, id);
      ReleasedKeepsCashLaw(db, db.orders[id], final);
      ReleasedKeepsSharesLaw(db, db.orders[id], final);
    }
  }

  lemma FilledKeepsLaws(db: Db, o: Order, dto: FillOrderDto)
    requires Laws(db) && o.id in db.orders && db.orders[o.id] == o && o.portfolioId in db.portfolios
    requires Fillable(o.status) && 0.0 < dto.quantity <= Remaining(o)
    ensures Laws(Filled(db, o, dto))
  {
    HeldAfterFill(o, dto.quantity);
    FilledKeepsCashLaw(db, o, dto);
    FilledKeepsSharesLaw(db, o, dto);
  }

  lemma FilledKeepsCashLaw(db: Db, o: Order, dto: FillOrderDto)
    requires CashLaw(db.portfolios, db.orders) && o.id in db.orders && db.orders[o.id] == o
    requires o.portfolioId in db.portfolios
    requires CashHeld(AfterFill(o, dto.quantity)) == CashHeld(o) - CashUsed(o, dto.quantity)
    ensures CashLaw(Filled(db, o, dto).portfolios, Filled(db, o, dto).orders)
  {
    WriteKeepsCashLaw(db.portfolios, Filled(db, o, dto).portfolios, db.orders, AfterFill(o, dto.quantity));
  }

  lemma FilledKeepsSharesLaw(db: Db, o: Order, dto: FillOrderDto)
    requires SharesLaw(db.positions, db.orders) && o.id in db.orders && db.orders[o.id] == o
    requires o.portfolioId in db.portfolios
    requires SharesHeld(AfterFill(o, dto.quantity)) == SharesHeld(o) - SharesUsed(o, dto.quantity)
    ensures SharesLaw(Filled(db, o, dto).positions, Filled(db, o, dto).orders)
  {
    WriteKeepsSharesLaw(db.positions, Filled(db, o, dto).positions, db.orders, AfterFill(o, dto.quantity));
  }

  lemma ProcessFillKeepsLaws(db: Db, dto: FillOrderDto)
    requires Shape(db) && Laws(db)
    ensures Laws(ProcessFill(db, dto).0)
  {
    if dto.quantity > 0.0 && dto.orderId in db.orders && !FillIgnored(db, dto) && FillRefusal(db, dto).None? {
      OrderShape(db, dto.orderId);
      FilledKeepsLaws(db, db.orders[dto.orderId], dto);
    }
  }

  /** A row rewritten without changing what it holds. */
  lemma SameHeldKeepsLaws(db: Db, o: Order)
    requires Laws(db) && o.id in db.orders && o.portfolioId in db.portfolios
    requires HoldingOf(o) == HoldingOf(db.orders[o.id])
    requires CashHeld(o) == CashHeld(db.orders[o.id]) && SharesHeld(o) == SharesHeld(db.orders[o.id])
    ensures Laws(db.(orders := db.orders[o.id := o]))
  {
    WriteKeepsCashLaw(db.portfolios, db.portfolios, db.orders, o);
    WriteKeepsSharesLaw(db.positions, db.positions, db.orders, o);
  }

  lemma MarkPendingKeepsLaws(db: Db, db': Db, id: Id)
    requires Shape(db) && Laws(db) && MarkPendingStep(db, db', id)
    ensures Laws(db')
  {
    if db' == Expire(db, id).0 { EndKeepsLaws(db, id, EXPIRED); }
    else if db' != db {
      OrderShape(db, id);
      SameHeldKeepsLaws(db, db.orders[id].(status := PENDING));
    }
  }

  lemma ActivateKeepsLaws(db: Db, id: Id)
    requires Shape(db) && Laws(db)
    ensures Laws(Activate(db, id).0)
  {
    if id in db.orders {
      OrderShape(db, id);
      SameHeldKeepsLaws(db, db.orders[id].(isActivated := true));
    }
  }

  /** Orders that hold nothing do not matter to the laws. */
  lemma CreatedKeepsLaws(db: Db, o: Order)
    requires Laws(db) && o.id !in db.orders && o.portfolioId in db.portfolios && !Active(o.status)
    ensures Laws(Created(db, o))
  {
    WriteKeepsCashLaw(db.portfolios, db.portfolios, db.orders, o);
    WriteKeepsSharesLaw(db.positions, db.positions, db.orders, o);
  }

  lemma CancelledHoldsSame(db: Db, pid: Id, id: Id)
    requires Shape(db) && id in db.orders
    ensures var o, o' := db.orders[id], CancelLiquidations(db, pid).orders[id];
            CashHeld(o') == CashHeld(o) && SharesHeld(o') == SharesHeld(o) && HoldingOf(o') == HoldingOf(o)
  {
    OrderShape(db, id);
  }

  lemma CancelledKeepsCashLaw(db: Db, pid: Id)
    requires Shape(db) && CashLaw(db.portfolios, db.orders)
    ensures CashLaw(db.portfolios, CancelLiquidations(db, pid).orders)
  {
    var orders' := CancelLiquidations(db, pid).orders;
    forall p | p in db.portfolios ensures CashLawAt(p, db.portfolios, orders') {
      assert CashLawAt(p, db.portfolios, db.orders);
      forall id | id in db.orders ensures CashTerm(p)(id, db.orders[id]) == CashTerm(p)(id, orders'[id]) {
        CancelledHoldsSame(db, pid, id);
      }
      SumAgree(db.orders, orders', CashTerm(p), CashTerm(p));
    }
  }

  lemma CancelledKeepsSharesLaw(db: Db, pid: Id)
    requires Shape(db) && SharesLaw(db.positions, db.orders)
    ensures SharesLaw(db.positions, CancelLiquidations(db, pid).orders)
  {
    var orders' := CancelLiquidations(db, pid).orders;
    forall h: Holding ensures Locked(db.positions, h) == Sum(orders', SharesTerm(h)) {
      forall id | id in db.orders ensures SharesTerm(h)(id, db.orders[id]) == SharesTerm(h)(id, orders'[id]) {
        CancelledHoldsSame(db, pid, id);
      }
      SumAgree(db.orders, orders', SharesTerm(h), SharesTerm(h));
    }
  }

  lemma EvaluationKeepsLaws(db: Db, db': Db, pid: Id, prices: map<Symbol, real>, newId: Id)
    requires Shape(db) && Laws(db) && newId !in db.orders && EvaluationStep(db, db', pid, prices, newId)
    ensures Laws(db')
  {
    if db' == CancelLiquidations(db, pid) {
      CancelledKeepsCashLaw(db, pid);
      CancelledKeepsSharesLaw(db, pid);
    } else if db' != db {
      CreatedKeepsLaws(db, LiquidationOrder(db, pid, newId, TopCandidate(db, pid, prices)));
    }
  }

  lemma ActKeepsLaws(db: Db, a: Action)
    requires Shape(db) && Laws(db)
    ensures Laws(Act(db, a))
  {
    hide Laws, Shape, MarkPending, OrderSpec.Activate, End, Evaluate, ProcessFill, Placed;
    if FreshId(db, a) {
      match a
      case PlaceOrder(dto, id, open) =>
        if Act(db, a) != db { PlacedKeepsLaws(db, dto, id); }
      case MarkOrderPending(id, before, inside) =>
        MarkPendingSteps(db, id, before, inside);
        MarkPendingKeepsLaws(db, Act(db, a), id);
      case ActivateStopLimit(id) => ActivateKeepsLaws(db, id);
      case Fill(fill) => ProcessFillKeepsLaws(db, fill);
      case CancelOrder(id) => EndKeepsLaws(db, id, CANCELLED);
      case ExpireOrder(id) => EndKeepsLaws(db, id, EXPIRED);
      case EvaluatePortfolio(pid, prices, ranking, open, id) =>
        EvaluateSteps(db, pid, prices, ranking, open, id);
        EvaluationKeepsLaws(db, Act(db, a), pid, ranking, id);
    }
  }

  /** Reservation conservation over every run from an unlocked database, whatever is placed, filled,
      cancelled, expired or liquidated, in any order: no residue and no negative lock is left behind. */
  lemma {:induction false} ReservationsConserved(db: Db, actions: seq<Action>)
    requires Initial(db)
    ensures Shape(Run(db, actions)) && Laws(Run(db, actions))
  {
    if actions == [] {
      InitialLaws(db);
    } else {
      ReservationsConserved(db, actions[..|actions| - 1]);
      ActKeepsShape(Run(db, actions[..|actions| - 1]), actions[|actions| - 1]);
      ActKeepsLaws(Run(db, actions[..|actions| - 1]), actions[|actions| - 1]);
    }
  }

  lemma InitialLaws(db: Db)
    requires Initial(db)
    ensures Shape(db) && Laws(db)
  {
    forall p | p in db.portfolios ensures CashLawAt(p, db.portfolios, db.orders) {}
  }
}
