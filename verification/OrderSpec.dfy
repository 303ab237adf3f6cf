/** What each order transaction decides and what it commits, as functions of the database. A refused
    transaction leaves the database as it was: the service runs each one atomically and rolls back. */
module OrderSpec {
  import opened Prelude
  import opened Liquidity
  import opened Domain
  import opened Trade

  datatype PlaceOrderDto = PlaceOrderDto(
    userId: Id, portfolioId: Id, symbol: Symbol, side: Side, kind: OrderType, quantity: real,
    limitPrice: Option<real>, stopPrice: Option<real>, marketPrice: real, key: IdempotencyKey)

  datatype FillOrderDto = FillOrderDto(orderId: Id, price: real, quantity: real, execution: real)

  /** Cash a fill moves. */
  function Cost(dto: FillOrderDto): real {
    dto.quantity * dto.price
  }

  // ---- placing -------------------------------------------------------------------------------

  function ReservationPrice(dto: PlaceOrderDto): real {
    if HasLimit(dto.kind) then dto.limitPrice.GetOr(0.0)
    else if dto.side.BUY? then dto.marketPrice * 1.05
    else dto.marketPrice * 0.95
  }

  function LacksPrice(dto: PlaceOrderDto): bool {
    || (HasLimit(dto.kind) && dto.limitPrice.None?)
    || ((dto.kind.STOP? || dto.kind.STOP_LIMIT?) && dto.stopPrice.None?)
  }

  /** The part of an order that opens exposure instead of closing what is held. */
  function ExposureIncrease(side: Side, quantity: real, held: real): real {
    if side.BUY? then
      if held >= 0.0 then quantity else Max(0.0, quantity - Abs(held))
    else
      if held <= 0.0 then quantity else Max(0.0, quantity - held)
  }

  function MarginToReserve(db: Db, dto: PlaceOrderDto): real {
    var exposure := ExposureIncrease(dto.side, dto.quantity,
                                     PositionAt(db, Holding(dto.portfolioId, dto.symbol)).quantity);
    if exposure > 0.0 then exposure * ReservationPrice(dto) * 0.5 else 0.0
  }

  function CashToReserve(dto: PlaceOrderDto): real {
    if dto.side.BUY? then dto.quantity * ReservationPrice(dto) else 0.0
  }

  predicate HasExposure(db: Db, pid: Id) {
    exists h | h in db.positions :: h.portfolioId == pid && Counts(db.positions[h])
  }

  /** The valuation made inside a placement is built without its price cache: it throws at the first open
      position, and of a portfolio without one it shows the cash that is not locked as margin. */
  function FreeMarginShown(db: Db, pid: Id): Option<real>
    requires pid in db.portfolios
  {
    if HasExposure(db, pid) then None
      else Some(ToFixed4(db.portfolios[pid].totalCash - db.portfolios[pid].lockedMargin))
  }

  /** Why a placement is refused. */
  function PlaceRefusal(db: Db, dto: PlaceOrderDto): Option<Failure> {
    var h := Holding(dto.portfolioId, dto.symbol);
    if dto.portfolioId !in db.portfolios then Some(NotFound)
    else
      var p := db.portfolios[dto.portfolioId];
      if p.userId != dto.userId then Some(Unauthorized)
      else if p.isMarginEnabled then
        if ExposureIncrease(dto.side, dto.quantity, PositionAt(db, h).quantity) <= 0.0 then None
        else match FreeMarginShown(db, dto.portfolioId)
          case None => Some(ValuationFailed)
          case Some(free) => if free < MarginToReserve(db, dto) then Some(InsufficientMargin) else None
      else if dto.side.BUY? then
        if p.totalCash - p.lockedCash < CashToReserve(dto) then Some(InsufficientFunds) else None
      else
        if h !in db.positions || db.positions[h].quantity - db.positions[h].locked < dto.quantity
        then Some(InsufficientQuantity) else None
  }

  function NewOrder(dto: PlaceOrderDto, id: Id): Order {
    Order(id, dto.userId, dto.portfolioId, dto.symbol, dto.side, dto.kind, dto.quantity, 0.0,
          dto.limitPrice, dto.stopPrice,
          if dto.side.BUY? then Some(ReservationPrice(dto)) else None, None,
          ACCEPTED, dto.key, false, false)
  }

  function Placed(db: Db, dto: PlaceOrderDto, id: Id): Db
    requires dto.portfolioId in db.portfolios
  {
    var p := db.portfolios[dto.portfolioId];
    var h := Holding(dto.portfolioId, dto.symbol);
    var held := PositionAt(db, h);
    db.(portfolios := db.portfolios[dto.portfolioId :=
          if p.isMarginEnabled then p.(lockedMargin := p.lockedMargin + MarginToReserve(db, dto))
          else p.(lockedCash := p.lockedCash + CashToReserve(dto))],
        positions := if dto.side.BUY? then db.positions
                     else db.positions[h := held.(locked := held.locked + dto.quantity)],
        orders := db.orders[id := NewOrder(dto, id)],
        byKey := db.byKey[(dto.userId, dto.key) := id])
  }

  function Place(db: Db, dto: PlaceOrderDto, id: Id, open: bool): (Db, Reply) {
    if dto.quantity <= 0.0 then (db, Err(QuantityNotPositive))
    else if LacksPrice(dto) then (db, Err(MissingPrice))
    else if !open then (db, Err(MarketClosed))
    else if (dto.userId, dto.key) in db.byKey && db.byKey[(dto.userId, dto.key)] in db.orders then
      (db, Ok(db.orders[db.byKey[(dto.userId, dto.key)]]))
    else match PlaceRefusal(db, dto)
      case Some(why) => (db, Err(why))
      case None => (Placed(db, dto, id), Ok(NewOrder(dto, id)))
  }

  // ---- ending an order -----------------------------------------------------------------------

  function Remaining(o: Order): real {
    o.requested - o.filled
  }

  /** Cash and shares held for the unfilled part of an active order. */
  function CashHeld(o: Order): real {
    if o.side.BUY? && Active(o.status) then Remaining(o) * o.reservationPrice.GetOr(0.0) else 0.0
  }

  function SharesHeld(o: Order): real {
    if o.side.SELL? && Active(o.status) then Remaining(o) else 0.0
  }

  /** The part of the reservation a fill of `quantity` uses up. */
  function CashUsed(o: Order, quantity: real): real {
    if o.side.BUY? then quantity * o.reservationPrice.GetOr(0.0) else 0.0
  }

  function SharesUsed(o: Order, quantity: real): real {
    if o.side.SELL? then quantity else 0.0
  }

  /** What the margin branch gives back, were a reservation ever stored on the order. */
  function MarginShare(p: Portfolio, o: Order, quantity: real): real {
    if p.isMarginEnabled && o.reservedMargin.Some? && o.requested != 0.0
    then o.reservedMargin.value * quantity / o.requested
    else 0.0
  }

  /** Portfolio and position rows once the unfilled rest of an order is given up. */
  function PortfolioReleased(p: Portfolio, o: Order): Portfolio {
    p.(lockedCash := p.lockedCash - (if p.isMarginEnabled then 0.0 else CashHeld(o)),
       lockedMargin := p.lockedMargin - MarginShare(p, o, Remaining(o)))
  }

  function PositionsReleased(positions: map<Holding, Position>, o: Order): map<Holding, Position>
    requires o.side.SELL? ==> HoldingOf(o) in positions
  {
    if o.side.BUY? then positions
    else positions[HoldingOf(o) := positions[HoldingOf(o)].(locked := positions[HoldingOf(o)].locked - SharesHeld(o))]
  }

  /** The order ends in `final` and everything it still holds is released. */
  function Released(db: Db, o: Order, final: OrderStatus): Db
    requires o.portfolioId in db.portfolios
    requires o.side.SELL? ==> HoldingOf(o) in db.positions
  {
    db.(orders := db.orders[o.id := o.(status := final)],
        portfolios := db.portfolios[o.portfolioId := PortfolioReleased(db.portfolios[o.portfolioId], o)],
        positions := PositionsReleased(db.positions, o))
  }

  /** cancelOrder and expireOrder differ only in the final status. */
  function End(db: Db, id: Id, final: OrderStatus): (Db, Reply) {
    if id !in db.orders then (db, Err(NotFound))
    else
      var o := db.orders[id];
      if !IsValidTransition(o.status, final) then (db, Err(InvalidTransition))
      else if Remaining(o) <= 0.0 then
        (db.(orders := db.orders[o.id := o.(status := final)]), Ok(o.(status := final)))
      else if o.portfolioId !in db.portfolios || (o.side.SELL? && HoldingOf(o) !in db.positions) then
        (db, Err(NotFound))
      else
        (Released(db, o, final), Ok(o.(status := final)))
  }

  function Cancel(db: Db, id: Id): (Db, Reply) {
    End(db, id, CANCELLED)
  }

  function Expire(db: Db, id: Id): (Db, Reply) {
    End(db, id, EXPIRED)
  }

  // ---- activation and routing ----------------------------------------------------------------

  /** The dispatcher's step; the session is looked at before and again inside the transaction. */
  function MarkPending(db: Db, id: Id, openBefore: bool, openInside: bool): (Db, Reply) {
    if !openBefore then Expire(db, id)
    else if id !in db.orders then (db, Err(NotFound))
    else
      var o := db.orders[id];
      if !IsValidTransition(o.status, PENDING) then (db, Err(InvalidTransition))
      else if !openInside then (db, Err(MarketClosed))
      else (db.(orders := db.orders[id := o.(status := PENDING)]), Ok(o.(status := PENDING)))
  }

  /** The dispatcher changes nothing, expires the order, or moves it to PENDING. */
  predicate MarkPendingStep(db: Db, db': Db, id: Id) {
    || db' == db
    || db' == Expire(db, id).0
    || (id in db.orders && db.orders[id].status.ACCEPTED?
        && db' == db.(orders := db.orders[id := db.orders[id].(status := PENDING)]))
  }

  lemma MarkPendingSteps(db: Db, id: Id, openBefore: bool, openInside: bool)
    ensures MarkPendingStep(db, MarkPending(db, id, openBefore, openInside).0, id)
  {}

  function Activate(db: Db, id: Id): (Db, Reply) {
    if id !in db.orders then (db, Err(NotFound))
    else
      var o := db.orders[id];
      if o.status != PENDING then (db, Err(NotPending))
      else if o.isActivated then (db, Ok(o))
      else (db.(orders := db.orders[id := o.(isActivated := true)]), Ok(o.(isActivated := true)))
  }

  // ---- filling -------------------------------------------------------------------------------

  /** The four double-entry records of a fill: cash one way, shares the other. */
  function FillEntries(o: Order, quantity: real, cost: real): seq<Entry> {
    if o.side.BUY? then
      [Entry(UserCash(o.userId), Fiat, cost, 0.0),
       Entry(PlatformCash, Fiat, 0.0, cost),
       Entry(PlatformSecurity(o.symbol), Security(o.symbol), quantity, 0.0),
       Entry(UserSecurity(o.userId, o.symbol), Security(o.symbol), 0.0, quantity)]
    else
      [Entry(UserCash(o.userId), Fiat, 0.0, cost),
       Entry(PlatformCash, Fiat, cost, 0.0),
       Entry(PlatformSecurity(o.symbol), Security(o.symbol), 0.0, quantity),
       Entry(UserSecurity(o.userId, o.symbol), Security(o.symbol), quantity, 0.0)]
  }

  function AfterFill(o: Order, quantity: real): Order {
    o.(filled := o.filled + quantity,
       status := if o.filled + quantity == o.requested then FILLED else PARTIALLY_FILLED)
  }

  /** Portfolio and position rows after a fill. */
  function PortfolioFilled(p: Portfolio, o: Order, dto: FillOrderDto): Portfolio {
    p.(totalCash := p.totalCash - Signed(o.side, Cost(dto)),
       lockedCash := p.lockedCash - (if p.isMarginEnabled then 0.0 else CashUsed(o, dto.quantity)),
       lockedMargin := p.lockedMargin - (if o.side.BUY? then MarginShare(p, o, dto.quantity) else 0.0))
  }

  function PositionFilled(held: Position, o: Order, dto: FillOrderDto): Position {
    Traded(held, Signed(o.side, dto.quantity), dto.price).(locked := held.locked - SharesUsed(o, dto.quantity))
  }

  /** Commit image of a fill. */
  function Filled(db: Db, o: Order, dto: FillOrderDto): Db
    requires o.portfolioId in db.portfolios
  {
    var h := HoldingOf(o);
    var held := PositionAt(db, h);
    db.(orders := db.orders[o.id := AfterFill(o, dto.quantity)],
        fills := db.fills[FillKey(o.id, dto.execution) :=
          Fill(dto.price, dto.quantity, Realized(held, Signed(o.side, dto.quantity), dto.price))],
        portfolios := db.portfolios[o.portfolioId := PortfolioFilled(db.portfolios[o.portfolioId], o, dto)],
        positions := db.positions[h := PositionFilled(held, o, dto)],
        ledger := db.ledger + FillEntries(o, dto.quantity, Cost(dto)))
  }

  /** A fill is acknowledged without effect when the order cannot be filled any more or the execution
      was already recorded. */
  predicate FillIgnored(db: Db, dto: FillOrderDto)
    requires dto.orderId in db.orders
  {
    var o := db.orders[dto.orderId];
    || !Fillable(o.status)
    || Remaining(o) <= 0.0
    || (o.filled + dto.quantity <= o.requested && FillKey(o.id, dto.execution) in db.fills)
  }

  function FillRefusal(db: Db, dto: FillOrderDto): Option<Failure>
    requires dto.orderId in db.orders
  {
    var o := db.orders[dto.orderId];
    if o.filled + dto.quantity > o.requested then Some(ExceedsRequested)
    else if o.portfolioId !in db.portfolios then Some(NotFound)
    else if o.side.SELL? && HoldingOf(o) !in db.positions then Some(NotFound)
    else if o.side.SELL? && db.positions[HoldingOf(o)].locked < dto.quantity then Some(InsufficientLocked)
    else if Cost(dto) < 0.0 then Some(NegativeEntry)
    else None
  }

  function ProcessFill(db: Db, dto: FillOrderDto): (Db, Reply) {
    if dto.quantity <= 0.0 then (db, Err(QuantityNotPositive))
    else if dto.orderId !in db.orders then (db, Err(NotFound))
    else if FillIgnored(db, dto) then (db, Ok(db.orders[dto.orderId]))
    else match FillRefusal(db, dto)
      case Some(why) => (db, Err(why))
      case None => (Filled(db, db.orders[dto.orderId], dto), Ok(AfterFill(db.orders[dto.orderId], dto.quantity)))
  }
}
