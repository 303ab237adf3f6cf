/** What the order transactions come to in every reachable state, told by the rows and the request alone: when each
    one succeeds, and which numbers it writes. */
module OrderTerms {
  import opened Prelude
  import opened Liquidity
  import opened Domain
  import opened Trade
  import opened OrderSpec
  import opened LiquidationSpec
  import opened Actions
  import opened Reservations
  import opened Steps
  import opened CashAccounts

  // ---- statuses --------------------------------------------------------------------------------

  /** In every run an order is FILLED exactly when all of it is filled, and PARTIALLY_FILLED exactly when a part is and
      it has not ended. */
  lemma StatusFollowsQuantity(db: Db, actions: seq<Action>, id: Id)
    requires Initial(db) && id in Run(db, actions).orders
    ensures var o := Run(db, actions).orders[id];
            && 0.0 <= o.filled <= o.requested && 0.0 < o.requested
            && (o.status.FILLED? <==> o.filled == o.requested)
            && (o.status.PARTIALLY_FILLED? <==>
                  o.filled > 0.0 && o.status in {RECEIVED, VALIDATED, ACCEPTED, PENDING, PARTIALLY_FILLED})
            && (o.status.PARTIALLY_FILLED? ==> o.filled < o.requested)
            && (o.isLiquidation ==> o.filled == 0.0)
  {
    hide Run, Laws;
    ReservationsConserved(db, actions);
    OrderShape(Run(db, actions), id);
  }

  /** The moves an action can make with a row. */
  predicate Moves(s: OrderStatus, s': OrderStatus, isLiquidation: bool) {
    match s
    case RECEIVED => s' == RECEIVED || (isLiquidation && s' == CANCELLED)
    case ACCEPTED => s' in {ACCEPTED, PENDING, CANCELLED, EXPIRED}
    case PENDING => s' in {PENDING, PARTIALLY_FILLED, FILLED, CANCELLED, EXPIRED}
    case PARTIALLY_FILLED => s' in {PARTIALLY_FILLED, FILLED, CANCELLED, EXPIRED}
    case _ => s' == s
  }

  lemma FillMoves(db: Db, dto: FillOrderDto, id: Id)
    requires Shape(db) && id in db.orders
    ensures id in ProcessFill(db, dto).0.orders
    ensures Moves(db.orders[id].status, ProcessFill(db, dto).0.orders[id].status, db.orders[id].isLiquidation)
  {
    hide PositionFilled, PortfolioFilled, FillEntries, Realized, Cost;
    OrderShape(db, id);
    FillAllOrNothing(db, dto);
    if dto.orderId in db.orders { OrderShape(db, dto.orderId); }
  }

  lemma EndMoves(db: Db, id: Id, final: OrderStatus, other: Id)
    requires Shape(db) && other in db.orders && (final.CANCELLED? || final.EXPIRED?)
    ensures other in End(db, id, final).0.orders
    ensures Moves(db.orders[other].status, End(db, id, final).0.orders[other].status, db.orders[other].isLiquidation)
  {
    OrderShape(db, other);
    if id in db.orders {
      EndSucceeds(db, id, final);
      OrderShape(db, id);
      hide PortfolioReleased, PositionsReleased;
    }
  }

  /** No action of any run makes another move: none leads to REJECTED or VALIDATED, and no final status is left. */
  lemma StatusPath(db: Db, actions: seq<Action>, a: Action, id: Id)
    requires Initial(db) && id in Run(db, actions).orders
    ensures id in Act(Run(db, actions), a).orders
    ensures var o, o' := Run(db, actions).orders[id], Act(Run(db, actions), a).orders[id];
            Moves(o.status, o'.status, o.isLiquidation)
  {
    hide Run, Laws;
    ReservationsConserved(db, actions);
    ActStatusPath(Run(db, actions), a, id);
  }

  lemma RoutingMoves(db: Db, i: Id, before: bool, inside: bool, id: Id)
    requires Shape(db) && id in db.orders
    ensures id in MarkPending(db, i, before, inside).0.orders
    ensures Moves(db.orders[id].status, MarkPending(db, i, before, inside).0.orders[id].status,
                  db.orders[id].isLiquidation)
  {
    EndMoves(db, i, EXPIRED, id);
    if i in db.orders { OrderShape(db, i); }
    hide Shape, End;
  }

  lemma ActivationMoves(db: Db, i: Id, id: Id)
    requires Shape(db) && id in db.orders
    ensures id in Activate(db, i).0.orders && Activate(db, i).0.orders[id].status == db.orders[id].status
  {}

  lemma PlacementMoves(db: Db, dto: PlaceOrderDto, newId: Id, open: bool, id: Id)
    requires id in db.orders && newId !in db.orders
    ensures id in Place(db, dto, newId, open).0.orders && Place(db, dto, newId, open).0.orders[id] == db.orders[id]
  {
    hide PlaceRefusal, LacksPrice, NewOrder;
  }

  lemma EvaluationMoves(db: Db, db': Db, pid: Id, prices: map<Symbol, real>, newId: Id, id: Id)
    requires Shape(db) && id in db.orders && newId !in db.orders && EvaluationStep(db, db', pid, prices, newId)
    ensures id in db'.orders && Moves(db.orders[id].status, db'.orders[id].status, db.orders[id].isLiquidation)
  {
    OrderShape(db, id);
    hide Shape, Candidates, TopCandidate, HasActiveLiquidation;
  }

  lemma ActStatusPath(db: Db, a: Action, id: Id)
    requires Shape(db) && id in db.orders
    ensures id in Act(db, a).orders
    ensures Moves(db.orders[id].status, Act(db, a).orders[id].status, db.orders[id].isLiquidation)
  {
    hide Shape, ProcessFill, End, Place, MarkPending, OrderSpec.Activate, Evaluate, EvaluationStep;
    if FreshId(db, a) {
      match a
      case PlaceOrder(dto, newId, open) => PlacementMoves(db, dto, newId, open, id);
      case MarkOrderPending(i, before, inside) => RoutingMoves(db, i, before, inside, id);
      case ActivateStopLimit(i) => ActivationMoves(db, i, id);
      case Fill(fill) => FillMoves(db, fill, id);
      case CancelOrder(i) => EndMoves(db, i, CANCELLED, id);
      case ExpireOrder(i) => EndMoves(db, i, EXPIRED, id);
      case EvaluatePortfolio(pid, prices, ranking, open, newId) =>
        EvaluateSteps(db, pid, prices, ranking, open, newId);
        EvaluationMoves(db, Act(db, a), pid, ranking, newId, id);
    }
  }

  // ---- filling ---------------------------------------------------------------------------------

  /** A fill is applied exactly when the order waits for one, has room for it, the execution is new, and the price is
      not negative; otherwise nothing changes. Applied, the stored row and the reply are the same, filled by as much
      more, and FILLED when that is all and PARTIALLY_FILLED when it is not. */
  lemma FillOutcome(db: Db, actions: seq<Action>, dto: FillOrderDto)
    requires Initial(db) && dto.orderId in Run(db, actions).orders
    ensures var now := Run(db, actions);
            var (db', reply) := ProcessFill(now, dto);
            var o := now.orders[dto.orderId];
            && dto.orderId in db'.orders
            && (db' != now <==>
                  && dto.quantity > 0.0 && o.status in {PENDING, PARTIALLY_FILLED}
                  && o.filled + dto.quantity <= o.requested
                  && FillKey(dto.orderId, dto.execution) !in now.fills && dto.quantity * dto.price >= 0.0)
            && (db' != now ==>
                  var o' := db'.orders[dto.orderId];
                  && reply == Ok(o') && o'.filled == o.filled + dto.quantity
                  && o' == o.(filled := o'.filled, status := o'.status)
                  && (o'.status == FILLED <==> o.filled + dto.quantity == o.requested)
                  && (o'.status == PARTIALLY_FILLED <==> o.filled + dto.quantity != o.requested))
  {
    hide Run, CashLaw, SharesLaw, Shape, PositionFilled, PortfolioFilled, FillEntries, Realized;
    ReservationsConserved(db, actions);
    var now := Run(db, actions);
    OrderShape(now, dto.orderId);
    LockCoversOrder(now, dto.orderId);
  }

  /** The position a holding has, an empty one when there is no row. */
  function Held(db: Db, h: Holding): Position {
    if h in db.positions then db.positions[h] else Position(0.0, 0.0, 0.0, 0.0, OPEN)
  }

  /** The profit a fill takes: the price gained on what it closes, and it closes no more than there is. */
  function ProfitTaken(side: Side, held: Position, quantity: real, price: real): real {
    match side
    case BUY =>
      if held.quantity >= 0.0 then 0.0
      else if quantity <= -held.quantity then (held.average - price) * quantity
      else (held.average - price) * -held.quantity
    case SELL =>
      if held.quantity <= 0.0 then 0.0
      else if quantity <= held.quantity then (price - held.average) * quantity
      else (price - held.average) * held.quantity
  }

  /** The entry price a fill leaves: the mean over all that is held when it adds, the old one when it closes, the
      fill's own when it begins or crosses zero. */
  predicate EntryPriceLeft(side: Side, held: Position, quantity: real, price: real, average: real) {
    match side
    case BUY =>
      if held.quantity > 0.0
      then (held.quantity + quantity) * average == held.quantity * held.average + quantity * price
      else if held.quantity == 0.0 || quantity > -held.quantity then average == price
      else average == held.average
    case SELL =>
      if held.quantity < 0.0
      then (held.quantity - quantity) * average == held.quantity * held.average - quantity * price
      else if held.quantity == 0.0 || quantity > held.quantity then average == price
      else average == held.average
  }

  lemma ProfitIs(side: Side, held: Position, quantity: real, price: real)
    requires quantity > 0.0
    ensures Realized(held, Signed(side, quantity), price) == ProfitTaken(side, held, quantity, price)
  {}

  lemma EntryPriceIs(side: Side, held: Position, quantity: real, price: real)
    requires quantity > 0.0
    ensures EntryPriceLeft(side, held, quantity, price, Entered(held, Signed(side, quantity), price))
  {
    var d := Signed(side, quantity);
    if SameDirection(held.quantity, d) {
      AveragedCost(held.quantity, held.average, d, price);
      var average := Averaged(held.quantity, held.average, d, price);
      hide Averaged;
      if held.quantity == 0.0 { SameMean(average, price, d, held.average); }
      NegatedCost(quantity, price);
    }
  }

  lemma NegatedCost(quantity: real, price: real)
    ensures -quantity * price == -(quantity * price)
  {}

  lemma SameMean(x: real, y: real, d: real, z: real)
    requires d != 0.0 && (0.0 + d) * x == 0.0 * z + d * y
    ensures x == y
  {
    assert (x - y) * d == 0.0;
  }

  /** The rows a fill rewrites, in numbers: cash against shares at the fill's price, the reservation used up, and the
      profit taken. */
  ghost predicate Paid(o: Order, dto: FillOrderDto, p: Portfolio, p': Portfolio, held: Position, held': Position,
                       f: Fill)
  {
    && f == Fill.Fill(dto.price, dto.quantity, ProfitTaken(o.side, held, dto.quantity, dto.price))
    && held'.realizedPnl == held.realizedPnl + f.realizedPnl
    && EntryPriceLeft(o.side, held, dto.quantity, dto.price, held'.average)
    && (held'.status.CLOSED? <==> held'.quantity == 0.0)
    && p' == p.(totalCash := p'.totalCash, lockedCash := p'.lockedCash)
    && match o.side
       case BUY =>
         && p'.totalCash == p.totalCash - dto.quantity * dto.price && o.reservationPrice.Some?
         && p'.lockedCash
              == (if p.isMarginEnabled then p.lockedCash else p.lockedCash - dto.quantity * o.reservationPrice.value)
         && held'.quantity == held.quantity + dto.quantity && held'.locked == held.locked
       case SELL =>
         && p'.totalCash == p.totalCash + dto.quantity * dto.price && p'.lockedCash == p.lockedCash
         && held'.quantity == held.quantity - dto.quantity && held'.locked == held.locked - dto.quantity
  }

  /** A fill that is applied writes these rows and no other, and the ledger only grows. */
  lemma FillWrites(db: Db, actions: seq<Action>, dto: FillOrderDto)
    requires Initial(db) && dto.orderId in Run(db, actions).orders
    requires ProcessFill(Run(db, actions), dto).0 != Run(db, actions)
    ensures var now, db' := Run(db, actions), ProcessFill(Run(db, actions), dto).0;
            var o, key := now.orders[dto.orderId], FillKey(dto.orderId, dto.execution);
            var h := Holding(o.portfolioId, o.symbol);
            && o.portfolioId in now.portfolios && o.portfolioId in db'.portfolios && h in db'.positions
            && key in db'.fills && dto.orderId in db'.orders
            && Paid(o, dto, now.portfolios[o.portfolioId], db'.portfolios[o.portfolioId], Held(now, h),
                    db'.positions[h], db'.fills[key])
            && db'.fills == now.fills[key := db'.fills[key]]
            && db'.portfolios == now.portfolios[o.portfolioId := db'.portfolios[o.portfolioId]]
            && db'.positions == now.positions[h := db'.positions[h]]
            && db'.orders == now.orders[dto.orderId := db'.orders[dto.orderId]] && now.ledger <= db'.ledger
  {
    hide Run, Laws, Shape, ProcessFill, Filled;
    ReservationsConserved(db, actions);
    var now := Run(db, actions);
    OrderShape(now, dto.orderId);
    FillAllOrNothing(now, dto);
    FilledWrites(now, now.orders[dto.orderId], dto);
  }

  lemma FilledWrites(db: Db, o: Order, dto: FillOrderDto)
    requires o.portfolioId in db.portfolios && dto.quantity > 0.0 && o.reservedMargin.None?
    requires o.side.BUY? ==> o.reservationPrice.Some?
    ensures var db', h, key := Filled(db, o, dto), Holding(o.portfolioId, o.symbol), FillKey(o.id, dto.execution);
            && o.portfolioId in db'.portfolios && h in db'.positions && key in db'.fills && o.id in db'.orders
            && Paid(o, dto, db.portfolios[o.portfolioId], db'.portfolios[o.portfolioId], Held(db, h), db'.positions[h],
                    db'.fills[key])
            && db'.fills == db.fills[key := db'.fills[key]]
            && db'.portfolios == db.portfolios[o.portfolioId := db'.portfolios[o.portfolioId]]
            && db'.positions == db.positions[h := db'.positions[h]]
            && db'.orders == db.orders[o.id := db'.orders[o.id]] && db.ledger <= db'.ledger
  {
    hide EntryPriceLeft, ProfitTaken, Entered, Realized;
    var held := Held(db, Holding(o.portfolioId, o.symbol));
    ProfitIs(o.side, held, dto.quantity, dto.price);
    EntryPriceIs(o.side, held, dto.quantity, dto.price);
  }

  // ---- placing ---------------------------------------------------------------------------------

  /** How much of a request opens exposure: all that does not close what is held the other way. */
  function Opens(side: Side, quantity: real, held: real): real {
    match side
    case BUY => if held >= 0.0 then quantity else if quantity > -held then quantity + held else 0.0
    case SELL => if held <= 0.0 then quantity else if quantity > held then quantity - held else 0.0
  }

  /** The margin asked for that: half its value at the limit; without a limit 52.5% of its value at the market for a
      buy and 47.5% for a sell. */
  function MarginAsked(dto: PlaceOrderDto, opens: real): real {
    if dto.kind.LIMIT? || dto.kind.STOP_LIMIT? then opens * dto.limitPrice.GetOr(0.0) * 0.5
    else if dto.side.BUY? then opens * dto.marketPrice * 0.525
    else opens * dto.marketPrice * 0.475
  }

  /** The cash asked for a buy: its value at the limit, or at 5% above the market. */
  function CashAsked(dto: PlaceOrderDto): real {
    if dto.kind.LIMIT? || dto.kind.STOP_LIMIT? then dto.quantity * dto.limitPrice.GetOr(0.0)
    else dto.quantity * dto.marketPrice + dto.quantity * dto.marketPrice * 0.05
  }

  predicate PricesGiven(dto: PlaceOrderDto) {
    match dto.kind
    case MARKET => true
    case LIMIT => dto.limitPrice.Some?
    case STOP => dto.stopPrice.Some?
    case STOP_LIMIT => dto.limitPrice.Some? && dto.stopPrice.Some?
  }

  /** The user's own portfolio has what the order asks for. A margin portfolio with an open position cannot open
      exposure at all. */
  ghost predicate Affords(db: Db, dto: PlaceOrderDto) {
    && dto.portfolioId in db.portfolios && db.portfolios[dto.portfolioId].userId == dto.userId
    && var p, h := db.portfolios[dto.portfolioId], Holding(dto.portfolioId, dto.symbol);
       var opens := Opens(dto.side, dto.quantity, Held(db, h).quantity);
       if p.isMarginEnabled then
         opens > 0.0 ==>
           && (forall k | k in db.positions && k.portfolioId == dto.portfolioId ::
                 db.positions[k].status.CLOSED? || db.positions[k].quantity == 0.0)
           && ToFixed4(p.totalCash - p.lockedMargin) >= MarginAsked(dto, opens)
       else if dto.side.BUY? then p.totalCash - p.lockedCash >= CashAsked(dto)
       else h in db.positions && db.positions[h].quantity - db.positions[h].locked >= dto.quantity
  }

  /** The new row, and the locks it was placed under. */
  ghost predicate Reserved(db: Db, db': Db, dto: PlaceOrderDto, id: Id)
    requires dto.portfolioId in db.portfolios
  {
    var p, h := db.portfolios[dto.portfolioId], Holding(dto.portfolioId, dto.symbol);
    && id in db'.orders
    && db' == db.(portfolios := db'.portfolios, positions := db'.positions,
                  orders := db.orders[id := db'.orders[id]], byKey := db.byKey[(dto.userId, dto.key) := id])
    && db'.orders[id] == Order(id, dto.userId, dto.portfolioId, dto.symbol, dto.side, dto.kind, dto.quantity, 0.0,
                               dto.limitPrice, dto.stopPrice, db'.orders[id].reservationPrice, None, ACCEPTED, dto.key,
                               false, false)
    && db'.portfolios == db.portfolios[dto.portfolioId :=
         if p.isMarginEnabled
         then p.(lockedMargin := p.lockedMargin + MarginAsked(dto, Opens(dto.side, dto.quantity, Held(db, h).quantity)))
         else if dto.side.BUY? then p.(lockedCash := p.lockedCash + CashAsked(dto))
         else p]
    && match dto.side
       case BUY =>
         && db'.positions == db.positions && db'.orders[id].reservationPrice.Some?
         && dto.quantity * db'.orders[id].reservationPrice.value == CashAsked(dto)
       case SELL =>
         && db'.positions == db.positions[h := Held(db, h).(locked := Held(db, h).locked + dto.quantity)]
         && db'.orders[id].reservationPrice.None?
  }

  lemma CashAskedIs(dto: PlaceOrderDto)
    ensures dto.side.BUY? ==> dto.quantity * ReservationPrice(dto) == CashToReserve(dto) == CashAsked(dto)
    ensures dto.side.SELL? ==> CashToReserve(dto) == 0.0
  {
    FivePercent(dto.quantity, dto.marketPrice);
  }

  lemma FivePercent(q: real, price: real)
    ensures q * (price * 1.05) == q * price + q * price * 0.05
    ensures q * (price * 1.05) * 0.5 == q * price * 0.525 && q * (price * 0.95) * 0.5 == q * price * 0.475
  {}

  lemma MarginAskedIs(db: Db, dto: PlaceOrderDto)
    ensures var held := Held(db, Holding(dto.portfolioId, dto.symbol)).quantity;
            var opens := Opens(dto.side, dto.quantity, held);
            && ExposureIncrease(dto.side, dto.quantity, held) == opens
            && (dto.quantity > 0.0 ==> MarginToReserve(db, dto) == MarginAsked(dto, opens))
  {
    var held := Held(db, Holding(dto.portfolioId, dto.symbol)).quantity;
    var opens := Opens(dto.side, dto.quantity, held);
    FivePercent(opens, dto.marketPrice);
  }

  lemma PlacedIsReserved(db: Db, dto: PlaceOrderDto, id: Id)
    requires dto.portfolioId in db.portfolios && dto.quantity > 0.0
    ensures Reserved(db, Placed(db, dto, id), dto, id)
  {
    CashAskedIs(dto);
    MarginAskedIs(db, dto);
    hide CashAsked, MarginAsked, MarginToReserve, CashToReserve, ReservationPrice, ExposureIncrease, Opens;
    var p := db.portfolios[dto.portfolioId];
    assert p.(lockedCash := p.lockedCash + 0.0) == p;
  }

  lemma AffordsExactly(db: Db, dto: PlaceOrderDto)
    requires dto.quantity > 0.0
    ensures Affords(db, dto) <==> PlaceRefusal(db, dto).None?
  {
    CashAskedIs(dto);
    MarginAskedIs(db, dto);
    hide CashAsked, MarginAsked, MarginToReserve, CashToReserve, ReservationPrice, ExposureIncrease, Opens, ToFixed4;
  }

  /** A placement makes a new order exactly when it is well-formed, in session, under a new key, and affordable. The
      row then starts ACCEPTED with nothing filled, what it asked for is locked, and nothing else changes; otherwise
      nothing changes at all, and a request under a known key gets that order back. */
  lemma PlacementOutcome(db: Db, actions: seq<Action>, dto: PlaceOrderDto, id: Id, open: bool)
    requires Initial(db) && id !in Run(db, actions).orders
    ensures var now, (db', reply) := Run(db, actions), Place(Run(db, actions), dto, id, open);
            var known := (dto.userId, dto.key) in now.byKey;
            && (id in db'.orders <==>
                  dto.quantity > 0.0 && PricesGiven(dto) && open && !known && Affords(now, dto))
            && (if id in db'.orders then Affords(now, dto) && Reserved(now, db', dto, id) && reply == Ok(db'.orders[id])
                else db' == now)
            && (dto.quantity > 0.0 && PricesGiven(dto) && open && known ==>
                  && now.byKey[(dto.userId, dto.key)] in now.orders
                  && reply == Ok(now.orders[now.byKey[(dto.userId, dto.key)]]))
  {
    hide Run, Laws, Affords, Reserved, Placed, PlaceRefusal, RowsOk, OwnersOk, HoldingsOk, PositionsOk;
    ReservationsConserved(db, actions);
    var now := Run(db, actions);
    if dto.quantity > 0.0 {
      AffordsExactly(now, dto);
      if Affords(now, dto) {
        assert dto.portfolioId in now.portfolios by { AffordsOwned(now, dto); }
        PlacedIsReserved(now, dto, id);
        ReservedRow(now, Placed(now, dto, id), dto, id);
      }
    }
  }

  lemma AffordsOwned(db: Db, dto: PlaceOrderDto)
    requires Affords(db, dto)
    ensures dto.portfolioId in db.portfolios
  {}

  lemma ReservedRow(db: Db, db': Db, dto: PlaceOrderDto, id: Id)
    requires dto.portfolioId in db.portfolios && Reserved(db, db', dto, id) && db' == Placed(db, dto, id)
    ensures id in db'.orders && db'.orders[id] == NewOrder(dto, id)
  {
    hide Reserved;
  }

  // ---- ending ----------------------------------------------------------------------------------

  /** The order has ended in this status, and what it held for its unfilled rest is free again. */
  ghost predicate GivenUp(db: Db, db': Db, o: Order, final: OrderStatus) {
    var h, rest := Holding(o.portfolioId, o.symbol), o.requested - o.filled;
    && o.portfolioId in db.portfolios
    && db' == db.(orders := db'.orders, portfolios := db'.portfolios, positions := db'.positions)
    && db'.orders == db.orders[o.id := o.(status := final)]
    && match o.side
       case BUY =>
         var p := db.portfolios[o.portfolioId];
         && o.reservationPrice.Some? && db'.positions == db.positions
         && db'.portfolios == db.portfolios[o.portfolioId :=
              if p.isMarginEnabled then p else p.(lockedCash := p.lockedCash - rest * o.reservationPrice.value)]
       case SELL =>
         && h in db.positions && db'.portfolios == db.portfolios
         && db'.positions == db.positions[h := db.positions[h].(locked := db.positions[h].locked - rest)]
  }

  lemma ReleasedIsGivenUp(db: Db, o: Order, final: OrderStatus)
    requires o.portfolioId in db.portfolios && (o.side.SELL? ==> HoldingOf(o) in db.positions)
    requires Active(o.status) && o.reservedMargin.None? && (o.side.BUY? ==> o.reservationPrice.Some?)
    ensures GivenUp(db, Released(db, o, final), o, final)
  {
    var p := db.portfolios[o.portfolioId];
    if o.side.BUY? {
      assert PortfolioReleased(p, o) == if p.isMarginEnabled then p
        else p.(lockedCash := p.lockedCash - (o.requested - o.filled) * o.reservationPrice.value);
    } else {
      assert PortfolioReleased(p, o) == p;
      assert db.portfolios[o.portfolioId := p] == db.portfolios;
    }
  }

  lemma EndOutcome(db: Db, id: Id, final: OrderStatus)
    requires Shape(db) && id in db.orders && (final.CANCELLED? || final.EXPIRED?)
    ensures var o, (db', reply) := db.orders[id], End(db, id, final);
            if o.status in {ACCEPTED, PENDING, PARTIALLY_FILLED}
            then GivenUp(db, db', o, final) && reply == Ok(o.(status := final))
            else db' == db && reply == Err(InvalidTransition)
  {
    OrderShape(db, id);
    hide Shape, GivenUp, Released;
    if Active(db.orders[id].status) { ReleasedIsGivenUp(db, db.orders[id], final); }
  }

  /** Cancelling ends an active order in CANCELLED, expiring ends it in EXPIRED; either way all it still held is
      released. An order in any other status is left alone. */
  lemma CancelAndExpireOutcome(db: Db, actions: seq<Action>, id: Id)
    requires Initial(db) && id in Run(db, actions).orders
    ensures var now := Run(db, actions);
            var o, (cancelled, answer), (expired, answer') := now.orders[id], Cancel(now, id), Expire(now, id);
            if o.status in {ACCEPTED, PENDING, PARTIALLY_FILLED}
            then && GivenUp(now, cancelled, o, CANCELLED) && answer == Ok(o.(status := CANCELLED))
                 && GivenUp(now, expired, o, EXPIRED) && answer' == Ok(o.(status := EXPIRED))
            else cancelled == expired == now && answer == answer' == Err(InvalidTransition)
  {
    hide Run, Laws, Shape, End, GivenUp;
    ReservationsConserved(db, actions);
    EndOutcome(Run(db, actions), id, CANCELLED);
    EndOutcome(Run(db, actions), id, EXPIRED);
  }

  /** Routing moves an ACCEPTED order to PENDING exactly when the session is open throughout, and changes nothing else
      then. When it is closed from the start every active order is expired; when it closes in between nothing
      happens. */
  lemma RoutingOutcome(db: Db, actions: seq<Action>, id: Id, openBefore: bool, openInside: bool)
    requires Initial(db) && id in Run(db, actions).orders
    ensures var now := Run(db, actions);
            var o, (db', reply) := now.orders[id], MarkPending(now, id, openBefore, openInside);
            if openBefore then
              if o.status == ACCEPTED && openInside
              then db' == now.(orders := now.orders[id := o.(status := PENDING)]) && reply == Ok(o.(status := PENDING))
              else db' == now && reply == Err(if o.status == ACCEPTED then MarketClosed else InvalidTransition)
            else if o.status in {ACCEPTED, PENDING, PARTIALLY_FILLED}
            then GivenUp(now, db', o, EXPIRED) && reply == Ok(o.(status := EXPIRED))
            else db' == now && reply == Err(InvalidTransition)
  {
    hide Run, Laws, Shape, End, GivenUp;
    ReservationsConserved(db, actions);
    OrderShape(Run(db, actions), id);
    EndOutcome(Run(db, actions), id, EXPIRED);
  }

  /** Activation marks a PENDING order, the first time and again, and refuses every other. */
  lemma ActivationOutcome(db: Db, actions: seq<Action>, id: Id)
    requires Initial(db) && id in Run(db, actions).orders
    ensures var now := Run(db, actions);
            var o, (db', reply) := now.orders[id], Activate(now, id);
            && (reply.Ok? <==> o.status == PENDING)
            && (reply.Ok? ==>
                  && reply.value == o.(isActivated := true) && reply.value.filled == 0.0
                  && db' == now.(orders := now.orders[id := reply.value]))
            && (reply.Err? ==> db' == now && reply.error == NotPending)
  {
    hide Run, Laws;
    ReservationsConserved(db, actions);
    OrderShape(Run(db, actions), id);
    hide Shape;
    var o := Run(db, actions).orders[id];
    if o.isActivated {
      assert o.(isActivated := true) == o;
      assert Run(db, actions).orders[id := o] == Run(db, actions).orders;
    }
  }
}
