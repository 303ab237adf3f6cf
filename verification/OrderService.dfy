/** The order service: each method is one transaction, rolled back as a whole when any step throws. */
module OrderServices {
  import opened Prelude
  import opened Domain
  import opened Trade
  import opened OrderSpec
  import opened Ledger
  import opened Store
  import opened PositionServices
  import opened LedgerServices
  import opened ValuationServices

  lemma RequiredCash(dto: PlaceOrderDto, reservation: real, required: real)
    requires reservation == ReservationPrice(dto) && dto.side.BUY? && required == dto.quantity * reservation
    ensures required == CashToReserve(dto)
  {}

  lemma RequiredMargin(db: Db, dto: PlaceOrderDto, reservation: real, increasing: real, reserved: real)
    requires reservation == ReservationPrice(dto)
    requires increasing
      == ExposureIncrease(dto.side, dto.quantity, PositionAt(db, Holding(dto.portfolioId, dto.symbol)).quantity)
    requires increasing > 0.0 ==> reserved == increasing * reservation * 0.50
    ensures increasing > 0.0 ==> MarginToReserve(db, dto) == reserved
    ensures increasing <= 0.0 ==> MarginToReserve(db, dto) == 0.0
  {
    hide ExposureIncrease;
  }

  lemma NothingForSell(dto: PlaceOrderDto)
    requires dto.side.SELL?
    ensures CashToReserve(dto) == 0.0
  {}

  lemma NoMarginShare(p: Portfolio, o: Order, q: real)
    requires !p.isMarginEnabled || o.reservedMargin.None?
    ensures MarginShare(p, o, q) == 0.0
  {}

  /** The rows a fill leaves, side by side. */
  lemma BuyRows(p: Portfolio, held: Position, o: Order, dto: FillOrderDto)
    requires o.side.BUY?
    ensures PositionFilled(held, o, dto) == Traded(held, dto.quantity, dto.price)
    ensures PortfolioFilled(p, o, dto) == p.(totalCash := p.totalCash - Cost(dto),
              lockedCash := if p.isMarginEnabled then p.lockedCash else p.lockedCash - CashUsed(o, dto.quantity),
              lockedMargin := p.lockedMargin - MarginShare(p, o, dto.quantity))
  {
    hide Entered, Realized, CashUsed, MarginShare, Cost;
  }

  lemma SellRows(p: Portfolio, held: Position, o: Order, dto: FillOrderDto)
    requires o.side.SELL?
    ensures PositionFilled(held, o, dto)
      == Traded(held, -dto.quantity, dto.price).(locked := held.locked - dto.quantity)
    ensures PortfolioFilled(p, o, dto) == p.(totalCash := p.totalCash + Cost(dto))
  {
    hide Entered, Realized, MarginShare, Cost;
  }

  class OrderService {
    const db: Database

    constructor (database: Database)
      ensures db == database
    {
      db := database;
    }

    method PlaceOrder(dto: PlaceOrderDto, newId: Id, open: bool) returns (r: Reply)
      modifies db
      ensures (db.State(), r) == Place(old(db.State()), dto, newId, open)
    {
      if dto.quantity <= 0.0 { return Err(QuantityNotPositive); }
      if dto.kind.LIMIT? && dto.limitPrice.None? { return Err(MissingPrice); }
      if dto.kind.STOP? && dto.stopPrice.None? { return Err(MissingPrice); }
      if dto.kind.STOP_LIMIT? && (dto.stopPrice.None? || dto.limitPrice.None?) { return Err(MissingPrice); }
      if !open { return Err(MarketClosed); }
      if (dto.userId, dto.key) in db.byKey {
        var existing := db.byKey[(dto.userId, dto.key)];
        if existing in db.orders { return Ok(db.orders[existing]); }
      }
      var saved := db.State();
      var reservation := if HasLimit(dto.kind) then dto.limitPrice.GetOr(0.0)
                         else if dto.side.BUY? then dto.marketPrice * 1.05 else dto.marketPrice * 0.95;
      r := Reserve(dto, reservation);
      if r.Err? { db.Restore(saved); return; }
      var o := NewOrder(dto, newId);
      db.SetOrder(o);
      db.byKey := db.byKey[(dto.userId, dto.key) := newId];
      return Ok(o);
    }

    /** Checks and takes the margin, cash and shares an order needs. */
    method Reserve(dto: PlaceOrderDto, reservation: real) returns (r: Reply)
      requires reservation == ReservationPrice(dto)
      modifies db
      ensures r.Err? <==> PlaceRefusal(old(db.State()), dto).Some?
      ensures r.Err? ==> PlaceRefusal(old(db.State()), dto) == Some(r.error)
      ensures r.Ok? ==> dto.portfolioId in old(db.portfolios)
      ensures r.Ok? ==> db.State() == Placed(old(db.State()), dto, 0).(orders := old(db.orders), byKey := old(db.byKey))
    {
      hide ReservationPrice, NewOrder, CashToReserve, MarginToReserve, FreeMarginShown;
      if dto.portfolioId !in db.portfolios { return Err(NotFound); }
      var p := db.portfolios[dto.portfolioId];
      if p.userId != dto.userId { return Err(Unauthorized); }
      var before, h := db.State(), Holding(dto.portfolioId, dto.symbol);
      if p.isMarginEnabled {
        var held := if h in db.positions then db.positions[h].quantity else 0.0;
        var increasing;
        if dto.side.BUY? {
          increasing := if held >= 0.0 then dto.quantity else Max(0.0, dto.quantity - Abs(held));
        } else {
          increasing := if held <= 0.0 then dto.quantity else Max(0.0, dto.quantity - held);
        }
        assert increasing == ExposureIncrease(dto.side, dto.quantity, PositionAt(before, h).quantity);
        hide ExposureIncrease;
        var reserved := increasing * reservation * 0.50;
        RequiredMargin(before, dto, reservation, increasing, reserved);
        if increasing > 0.0 {
          var val := ValuedWithoutCache(dto.portfolioId);
          if val.None? { return Err(ValuationFailed); }
          if val.value < reserved { return Err(InsufficientMargin); }
          db.SetPortfolio(dto.portfolioId, p.(lockedMargin := p.lockedMargin + reserved));
        }
      } else if dto.side.BUY? {
        var required := dto.quantity * reservation;
        RequiredCash(dto, reservation, required);
        if p.totalCash - p.lockedCash < required { return Err(InsufficientFunds); }
        db.SetPortfolio(dto.portfolioId, p.(lockedCash := p.lockedCash + required));
      }
      if dto.side.SELL? {
        NothingForSell(dto);
        var locked := PositionService.LockPosition(db, dto.portfolioId, dto.symbol, dto.quantity);
        if locked.Err? { return Err(locked.error); }
      }
      return Ok(NewOrder(dto, 0));
    }

    /** The margin check's own valuation service is constructed without a price cache. */
    method ValuedWithoutCache(pid: Id) returns (freeMargin: Option<real>)
      requires pid in db.portfolios
      ensures freeMargin == FreeMarginShown(db.State(), pid)
    {
      hide HasExposure, FreeMargin, ToFixed4;
      var val := PortfolioValuationService.GetValuation(db, pid, None);
      if val.Err? { return None; }
      FlatFreeMargin(db.State(), pid, map[]);
      return Some(val.value.freeMargin);
    }

    method MarkOrderPending(id: Id, openBefore: bool, openInside: bool) returns (r: Reply)
      modifies db
      ensures (db.State(), r) == MarkPending(old(db.State()), id, openBefore, openInside)
    {
      if !openBefore {
        r := ExpireOrder(id);
        return;
      }
      if id !in db.orders { return Err(NotFound); }
      var o := db.orders[id];
      if !IsValidTransition(o.status, PENDING) { return Err(InvalidTransition); }
      if !openInside { return Err(MarketClosed); }
      db.orders := db.orders[id := o.(status := PENDING)];
      return Ok(o.(status := PENDING));
    }

    method ActivateStopLimit(id: Id) returns (r: Reply)
      modifies db
      ensures (db.State(), r) == Activate(old(db.State()), id)
    {
      if id !in db.orders { return Err(NotFound); }
      var o := db.orders[id];
      if o.status != PENDING { return Err(NotPending); }
      if o.isActivated { return Ok(o); }
      db.orders := db.orders[id := o.(isActivated := true)];
      return Ok(o.(isActivated := true));
    }

    method ProcessFill(dto: FillOrderDto) returns (r: Reply)
      modifies db
      ensures (db.State(), r) == OrderSpec.ProcessFill(old(db.State()), dto)
    {
      hide Filled, FillEntries, Cost;
      if dto.quantity <= 0.0 { return Err(QuantityNotPositive); }
      if dto.orderId !in db.orders { return Err(NotFound); }
      var o := db.orders[dto.orderId];
      if !Fillable(o.status) { return Ok(o); }
      if o.requested - o.filled <= 0.0 { return Ok(o); }
      if o.filled + dto.quantity > o.requested { return Err(ExceedsRequested); }
      // The unique constraint on the execution key: the insert throws and the caller gets the order back.
      if FillKey(o.id, dto.execution) in db.fills { return Ok(o); }
      if o.portfolioId !in db.portfolios { return Err(NotFound); }
      var saved := db.State();
      var failure := ApplyFill(o, dto);
      if failure.Some? {
        db.Restore(saved);
        return Err(failure.value);
      }
      return Ok(AfterFill(o, dto.quantity));
    }

    /** The writes of a fill: order, fill record, cash and position, ledger. */
    method ApplyFill(o: Order, dto: FillOrderDto) returns (failure: Option<Failure>)
      requires dto.quantity > 0.0 && o.portfolioId in db.portfolios
      modifies db
      ensures failure == (if o.side.SELL? && HoldingOf(o) !in old(db.positions) then Some(NotFound)
                          else if o.side.SELL? && old(db.positions)[HoldingOf(o)].locked < dto.quantity
                            then Some(InsufficientLocked)
                          else if Cost(dto) < 0.0 then Some(NegativeEntry)
                          else None)
      ensures failure.None? ==> db.State() == Filled(old(db.State()), o, dto)
    {
      hide Realized, EntriesRefusal, Cost, FillEntries, PositionFilled, PortfolioFilled, Signed;
      var key := FillKey(o.id, dto.execution);
      db.SetOrder(AfterFill(o, dto.quantity));
      db.fills := db.fills[key := Fill(dto.price, dto.quantity, 0.0)];
      var realized := MoveMoney(o, dto);
      if realized.Err? { return Some(realized.error); }
      db.fills := db.fills[key := Fill(dto.price, dto.quantity, realized.value)];
      FillEntriesValid(o, dto);
      var refused := LedgerService.RecordTransaction(db, FillEntries(o, dto.quantity, Cost(dto)));
      return refused;
    }

    /** Cash and position of a fill; a sell checks its lock before anything is paid. */
    method MoveMoney(o: Order, dto: FillOrderDto) returns (r: Result<real, Failure>)
      requires dto.quantity > 0.0 && o.portfolioId in db.portfolios
      modifies db
      ensures r.Err? <==>
          o.side.SELL? && (HoldingOf(o) !in old(db.positions) || old(db.positions)[HoldingOf(o)].locked < dto.quantity)
      ensures r.Err? ==> r.error == if HoldingOf(o) !in old(db.positions) then NotFound else InsufficientLocked
      ensures r.Ok? ==>
        var held := PositionAt(old(db.State()), HoldingOf(o));
        && r.value == Realized(held, Signed(o.side, dto.quantity), dto.price)
        && db.State() == old(db.State()).(
             portfolios :=
               old(db.portfolios)[o.portfolioId := PortfolioFilled(old(db.portfolios)[o.portfolioId], o, dto)],
             positions := old(db.positions)[HoldingOf(o) := PositionFilled(held, o, dto)])
    {
      hide Realized, Traded, MarginShare, Cost, CashUsed, PositionFilled, PortfolioFilled;
      var p, held := db.portfolios[o.portfolioId], PositionAt(db.State(), HoldingOf(o));
      var cost := Cost(dto);
      if o.side.BUY? {
        var paid := p.(totalCash := p.totalCash - cost);
        if !p.isMarginEnabled {
          NoMarginShare(p, o, dto.quantity);
          paid := paid.(lockedCash := p.lockedCash - CashUsed(o, dto.quantity));
        } else if o.reservedMargin.Some? {
          paid := paid.(lockedMargin := p.lockedMargin - MarginShare(p, o, dto.quantity));
        } else {
          NoMarginShare(p, o, dto.quantity);
        }
        BuyRows(p, held, o, dto);
        db.SetPortfolio(o.portfolioId, paid);
        var realized := PositionService.AdjustOnBuy(db, o.portfolioId, o.symbol, dto.quantity, dto.price);
        return Ok(realized);
      } else {
        r := PositionService.AdjustOnSell(db, o.portfolioId, o.symbol, dto.quantity, dto.price);
        if r.Err? { return; }
        SellRows(p, held, o, dto);
        db.SetPortfolio(o.portfolioId, p.(totalCash := p.totalCash + cost));
      }
    }

    method CancelOrder(id: Id) returns (r: Reply)
      modifies db
      ensures (db.State(), r) == Cancel(old(db.State()), id)
    {
      r := EndOrder(id, CANCELLED);
    }

    method ExpireOrder(id: Id) returns (r: Reply)
      modifies db
      ensures (db.State(), r) == Expire(old(db.State()), id)
    {
      r := EndOrder(id, EXPIRED);
    }

    /** cancelOrder and expireOrder have the same body apart from the final status. */
    method EndOrder(id: Id, final: OrderStatus) returns (r: Reply)
      requires final.CANCELLED? || final.EXPIRED?
      modifies db
      ensures (db.State(), r) == End(old(db.State()), id, final)
    {
      hide MarginShare;
      if id !in db.orders { return Err(NotFound); }
      var o := db.orders[id];
      if !IsValidTransition(o.status, final) { return Err(InvalidTransition); }
      var remaining := o.requested - o.filled;
      if remaining > 0.0 {
        if o.portfolioId !in db.portfolios { return Err(NotFound); }
        var p := db.portfolios[o.portfolioId];
        var h := HoldingOf(o);
        var released := p;
        if o.side.BUY? {
          if !p.isMarginEnabled {
            released := released.(lockedCash := p.lockedCash - CashUsed(o, remaining));
          }
        } else {
          if h !in db.positions { return Err(NotFound); }
          db.SetPosition(h, db.positions[h].(locked := db.positions[h].locked - remaining));
        }
        if p.isMarginEnabled && o.reservedMargin.Some? {
          released := released.(lockedMargin := p.lockedMargin - MarginShare(p, o, remaining));
        } else {
          NoMarginShare(p, o, remaining);
        }
        RestHeld(o, remaining, final);
        hide CashHeld, CashUsed, SharesHeld, IsValidTransition;
        db.SetPortfolio(o.portfolioId, released);
      }
      db.SetOrder(o.(status := final));
      return Ok(o.(status := final));
    }
  }

  /** An order that may end is active, so it holds a reservation for all that remains. */
  lemma RestHeld(o: Order, remaining: real, final: OrderStatus)
    requires IsValidTransition(o.status, final) && (final.CANCELLED? || final.EXPIRED?) && remaining == Remaining(o)
    ensures CashHeld(o) == CashUsed(o, remaining) && SharesHeld(o) == SharesUsed(o, remaining)
  {}
}
