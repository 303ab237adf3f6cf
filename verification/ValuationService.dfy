/** The valuation service: one loop over a portfolio's positions with running totals. */
module ValuationServices {
  import opened Prelude
  import opened Sums
  import opened Domain
  import opened OrderSpec
  import opened Valuation
  import opened Store

  function PositionsOf(positions: map<Holding, Position>, pid: Id): map<Holding, Position> {
    map h | h in positions && h.portfolioId == pid :: positions[h]
  }

  /** A term that counts only this portfolio's rows sums the same over its own rows. */
  lemma OwnRowsSuffice(positions: map<Holding, Position>, pid: Id, term: (Holding, Position) -> real)
    requires forall h: Holding | h in positions && h.portfolioId != pid :: term(h, positions[h]) == 0.0
    ensures Sum(PositionsOf(positions, pid), term) == Sum(positions, term)
  {
    SumAgree(PositionsOf(positions, pid), positions, term, term);
  }

  /** The running totals of the loop. */
  datatype Totals = Totals(long: real, short: real, unrealized: real, realized: real, initial: real, maintenance: real)

  /** The totals gathered so far plus what the remaining rows will add make up the portfolio's sums. */
  ghost predicate Accounted(t: Totals, remaining: map<Holding, Position>, positions: map<Holding, Position>, pid: Id,
                            prices: Prices) {
    && t.long + Sum(remaining, LongValue(pid, prices)) == Sum(positions, LongValue(pid, prices))
    && t.short + Sum(remaining, ShortValue(pid, prices)) == Sum(positions, ShortValue(pid, prices))
    && t.unrealized + Sum(remaining, Unrealized(pid, prices)) == Sum(positions, Unrealized(pid, prices))
    && t.realized + Sum(remaining, RealizedPnl(pid)) == Sum(positions, RealizedPnl(pid))
    && t.initial + Sum(remaining, InitialMargin(pid, prices)) == Sum(positions, InitialMargin(pid, prices))
    && t.maintenance + Sum(remaining, MaintenanceMargin(pid, prices)) == Sum(positions, MaintenanceMargin(pid, prices))
  }

  lemma NothingYet(positions: map<Holding, Position>, pid: Id, prices: Prices)
    ensures Accounted(Totals(0.0, 0.0, 0.0, 0.0, 0.0, 0.0), PositionsOf(positions, pid), positions, pid, prices)
  {
    OwnRowsSuffice(positions, pid, LongValue(pid, prices));
    OwnRowsSuffice(positions, pid, ShortValue(pid, prices));
    OwnRowsSuffice(positions, pid, Unrealized(pid, prices));
    OwnRowsSuffice(positions, pid, RealizedPnl(pid));
    OwnRowsSuffice(positions, pid, InitialMargin(pid, prices));
    OwnRowsSuffice(positions, pid, MaintenanceMargin(pid, prices));
  }

  /** What one row adds. */
  function RowTotals(h: Holding, pos: Position, pid: Id, prices: Prices): Totals {
    Totals(LongValue(pid, prices)(h, pos), ShortValue(pid, prices)(h, pos), Unrealized(pid, prices)(h, pos),
           RealizedPnl(pid)(h, pos), InitialMargin(pid, prices)(h, pos), MaintenanceMargin(pid, prices)(h, pos))
  }

  function Plus(t: Totals, u: Totals): Totals {
    Totals(t.long + u.long, t.short + u.short, t.unrealized + u.unrealized, t.realized + u.realized,
           t.initial + u.initial, t.maintenance + u.maintenance)
  }

  lemma TakeRow(t: Totals, remaining: map<Holding, Position>, positions: map<Holding, Position>, pid: Id,
                prices: Prices, h: Holding)
    requires Accounted(t, remaining, positions, pid, prices) && h in remaining
    ensures Accounted(Plus(t, RowTotals(h, remaining[h], pid, prices)), remaining - {h}, positions, pid, prices)
  {
    hide LongValue, ShortValue, Unrealized, RealizedPnl, InitialMargin, MaintenanceMargin;
    SumTakeOut(remaining, h, LongValue(pid, prices));
    SumTakeOut(remaining, h, ShortValue(pid, prices));
    SumTakeOut(remaining, h, Unrealized(pid, prices));
    SumTakeOut(remaining, h, RealizedPnl(pid));
    SumTakeOut(remaining, h, InitialMargin(pid, prices));
    SumTakeOut(remaining, h, MaintenanceMargin(pid, prices));
  }

  lemma RowOfLong(h: Holding, pos: Position, pid: Id, prices: Prices, value: real)
    requires h.portfolioId == pid && Counts(pos) && pos.quantity > 0.0 && value == Mark(h, pos, prices) * pos.quantity
    ensures RowTotals(h, pos, pid, prices)
         == Totals(value, 0.0, (Mark(h, pos, prices) - pos.average) * pos.quantity, pos.realizedPnl, value * 0.50,
                   value * 0.25)
  {
    hide Mark;
  }

  lemma RowOfShort(h: Holding, pos: Position, pid: Id, prices: Prices, value: real)
    requires h.portfolioId == pid && Counts(pos) && pos.quantity < 0.0
    requires value == Mark(h, pos, prices) * Abs(pos.quantity)
    ensures RowTotals(h, pos, pid, prices)
         == Totals(0.0, value, (pos.average - Mark(h, pos, prices)) * Abs(pos.quantity), pos.realizedPnl, value * 0.50,
                   value * 0.25)
  {
    hide Mark;
  }

  lemma RowOfNone(h: Holding, pos: Position, pid: Id, prices: Prices)
    requires h.portfolioId == pid && !Counts(pos)
    ensures RowTotals(h, pos, pid, prices) == Totals(0.0, 0.0, 0.0, pos.realizedPnl, 0.0, 0.0)
  {}

  function Shown(level: Option<real>): Option<real> {
    match level
    case None => None
    case Some(x) => Some(ToFixed4(x))
  }

  ghost function FreeMargin(db: Db, pid: Id, prices: Prices): real
    requires pid in db.portfolios
  {
    Equity(db, pid, prices) - Sum(db.positions, InitialMargin(pid, prices)) - db.portfolios[pid].lockedMargin
  }

  /** What the service reports for a portfolio. The status goes by the exact margin level, not the shown one. */
  ghost predicate Reports(db: Db, pid: Id, cache: Option<PriceCache>, r: Report)
    requires pid in db.portfolios
  {
    var p, prices := db.portfolios[pid], PricesOf(cache);
    var long, short := Sum(db.positions, LongValue(pid, prices)), Sum(db.positions, ShortValue(pid, prices));
    var level := MarginLevel(Equity(db, pid, prices), Maintenance(db, pid, prices));
    var free := FreeMargin(db, pid, prices);
    && r.totalCash == ToFixed4(p.totalCash) && r.lockedCash == ToFixed4(p.lockedCash)
    && r.availableCash == ToFixed4(p.totalCash - p.lockedCash)
    && r.longMarketValue == ToFixed4(long) && r.shortLiabilityValue == ToFixed4(short)
    && r.marketValue == ToFixed4(long - short) && r.grossExposure == ToFixed4(long + short)
    && r.unrealizedPnl == ToFixed4(Sum(db.positions, Unrealized(pid, prices)))
    && r.realizedPnl == ToFixed4(Sum(db.positions, RealizedPnl(pid)))
    && r.totalNav == ToFixed4(Equity(db, pid, prices))
    && r.isMarginEnabled == p.isMarginEnabled && r.lockedMargin == ToFixed4(p.lockedMargin)
    && r.initialMargin == r.usedMargin == ToFixed4(Sum(db.positions, InitialMargin(pid, prices)))
    && r.maintenanceMargin == ToFixed4(Maintenance(db, pid, prices))
    && r.freeMargin == ToFixed4(free)
    && r.buyingPower == ToFixed4(if free > 0.0 then free / 0.50 else 0.0)
    && r.marginLevel == Shown(level) && r.marginStatus == StatusOf(level)
    && r.isStale == AnyUnpriced(db.positions, pid, cache)
  }

  /** Without open positions equity is cash, and nothing is used as margin. */
  lemma FlatFreeMargin(db: Db, pid: Id, prices: Prices)
    requires pid in db.portfolios && !HasExposure(db, pid)
    ensures FreeMargin(db, pid, prices) == db.portfolios[pid].totalCash - db.portfolios[pid].lockedMargin
  {
    forall h | h in db.positions
      ensures LongValue(pid, prices)(h, db.positions[h]) == 0.0 && ShortValue(pid, prices)(h, db.positions[h]) == 0.0
      ensures InitialMargin(pid, prices)(h, db.positions[h]) == 0.0
    {}
    SumOfZeros(db.positions, LongValue(pid, prices));
    SumOfZeros(db.positions, ShortValue(pid, prices));
    SumOfZeros(db.positions, InitialMargin(pid, prices));
  }

  class PortfolioValuationService {

    /** Without a price cache the valuation throws at the first open position. */
    static method GetValuation(db: Database, pid: Id, cache: Option<PriceCache>) returns (r: Result<Report, Failure>)
      ensures r.Ok? <==> pid in db.portfolios && (cache.None? ==> !HasExposure(db.State(), pid))
      ensures r.Ok? ==> Reports(db.State(), pid, cache, r.value)
      ensures r.Err? ==> r.error == if pid in db.portfolios then ValuationFailed else NotFound
    {
      hide ToFixed4, AnyUnpriced, HasExposure;
      if pid !in db.portfolios { return Err(NotFound); }
      var p := db.portfolios[pid];
      var swept := Sweep(db, pid, cache);
      if swept.Err? { return Err(swept.error); }
      var (t, isStale) := swept.value;
      var net, gross := t.long - t.short, t.long + t.short;
      var equity := p.totalCash + net;
      var freeMargin := equity - t.initial - p.lockedMargin;
      var buyingPower := if freeMargin > 0.0 then freeMargin / 0.50 else 0.0;
      var level, status := None, NORMAL;
      if t.maintenance > 0.0 {
        var ml := equity / t.maintenance * 100.0;
        level := Some(ToFixed4(ml));
        if ml < 100.0 { status := FORCED_LIQUIDATION; } else if ml < 120.0 { status := MARGIN_CALL; }
      }
      return Ok(Report(
        ToFixed4(p.totalCash), ToFixed4(p.lockedCash), ToFixed4(p.totalCash - p.lockedCash), ToFixed4(net),
        ToFixed4(t.unrealized), ToFixed4(t.realized), ToFixed4(equity), p.isMarginEnabled, ToFixed4(p.lockedMargin),
        ToFixed4(t.long), ToFixed4(t.short), ToFixed4(gross), ToFixed4(t.initial), ToFixed4(t.maintenance),
        ToFixed4(t.initial), ToFixed4(freeMargin), level, ToFixed4(buyingPower), status, isStale));
    }

    /** The loop over the positions. */
    static method Sweep(db: Database, pid: Id, cache: Option<PriceCache>) returns (r: Result<(Totals, bool), Failure>)
      ensures r.Ok? <==> (cache.None? ==> !HasExposure(db.State(), pid))
      ensures r.Ok? ==> Accounted(r.value.0, map[], db.positions, pid, PricesOf(cache))
      ensures r.Ok? ==> r.value.1 == AnyUnpriced(db.positions, pid, cache)
      ensures r.Err? ==> r.error == ValuationFailed
    {
      hide Accounted, RowTotals, Plus;
      var prices, isStale := PricesOf(cache), false;
      var t := Totals(0.0, 0.0, 0.0, 0.0, 0.0, 0.0);
      var remaining := PositionsOf(db.positions, pid);
      NothingYet(db.positions, pid, prices);
      while remaining != map[]
        invariant forall h | h in remaining ::
          h in db.positions && h.portfolioId == pid && remaining[h] == db.positions[h]
        invariant Accounted(t, remaining, db.positions, pid, prices)
        invariant forall h | h in db.positions && h.portfolioId == pid && h !in remaining && cache.None? ::
          !Counts(db.positions[h])
        invariant isStale == exists h | h in db.positions && h !in remaining ::
          h.portfolioId == pid && Counts(db.positions[h]) && Unpriced(h, cache)
        decreases |remaining|
      {
        var h :| h in remaining;
        var pos := remaining[h];
        TakeRow(t, remaining, db.positions, pid, prices, h);
        if Counts(pos) && cache.None? { return Err(ValuationFailed); }
        t := AddRow(t, h, pos, pid, prices);
        remaining := remaining - {h};
        if Counts(pos) && Unpriced(h, cache) { isStale := true; }
      }
      return Ok((t, isStale));
    }

    /** The loop's body: one position marked at its executable closing price. */
    static method AddRow(t: Totals, h: Holding, pos: Position, pid: Id, prices: Prices) returns (t': Totals)
      requires h.portfolioId == pid
      ensures t' == Plus(t, RowTotals(h, pos, pid, prices))
    {
      hide RowTotals, Mark;
      if pos.status.CLOSED? || pos.quantity == 0.0 {
        RowOfNone(h, pos, pid, prices);
        return t.(realized := t.realized + pos.realizedPnl);
      }
      var mark := Mark(h, pos, prices);
      if pos.quantity > 0.0 {
        var value := mark * pos.quantity;
        RowOfLong(h, pos, pid, prices, value);
        return Totals(t.long + value, t.short, t.unrealized + (mark - pos.average) * pos.quantity,
                      t.realized + pos.realizedPnl, t.initial + value * 0.50, t.maintenance + value * 0.25);
      }
      var value := mark * Abs(pos.quantity);
      RowOfShort(h, pos, pid, prices, value);
      return Totals(t.long, t.short + value, t.unrealized + (pos.average - mark) * Abs(pos.quantity),
                    t.realized + pos.realizedPnl, t.initial + value * 0.50, t.maintenance + value * 0.25);
    }
  }
}
