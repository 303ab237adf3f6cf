/** Portfolio valuation: every open position marked at the price it could be closed at now. */
module Valuation {
  import opened Prelude
  import opened Sums
  import opened Liquidity
  import opened Domain

  type Prices = map<Symbol, real>

  /** Latest price, or the entry price when there is none. */
  function Reference(h: Holding, pos: Position, prices: Prices): real {
    if h.symbol in prices then prices[h.symbol] else pos.average
  }

  /** Executable closing price: bid for a long position, ask for a short one. */
  function Mark(h: Holding, pos: Position, prices: Prices): real {
    ExecPrice(if pos.quantity > 0.0 then SELL else BUY, h.symbol, Reference(h, pos, prices), 0.0)
  }

  function LongValue(pid: Id, prices: Prices): (Holding, Position) -> real {
    (h: Holding, pos: Position) => if h.portfolioId == pid && Counts(pos) && pos.quantity > 0.0
                then Mark(h, pos, prices) * pos.quantity else 0.0
  }

  function ShortValue(pid: Id, prices: Prices): (Holding, Position) -> real {
    (h: Holding, pos: Position) => if h.portfolioId == pid && Counts(pos) && pos.quantity < 0.0
                then Mark(h, pos, prices) * Abs(pos.quantity) else 0.0
  }

  function Unrealized(pid: Id, prices: Prices): (Holding, Position) -> real {
    (h: Holding, pos: Position) => if h.portfolioId == pid && Counts(pos) then
                  if pos.quantity > 0.0 then (Mark(h, pos, prices) - pos.average) * pos.quantity
                  else (pos.average - Mark(h, pos, prices)) * Abs(pos.quantity)
                else 0.0
  }

  function RealizedPnl(pid: Id): (Holding, Position) -> real {
    (h: Holding, pos: Position) => if h.portfolioId == pid then pos.realizedPnl else 0.0
  }

  /** Initial margin contribution of a position. */
  function InitialMargin(pid: Id, prices: Prices): (Holding, Position) -> real {
    (h: Holding, pos: Position) => if h.portfolioId == pid && Counts(pos)
      then Mark(h, pos, prices) * Abs(pos.quantity) * 0.50 else 0.0
  }

  function MaintenanceMargin(pid: Id, prices: Prices): (Holding, Position) -> real {
    (h: Holding, pos: Position) => if h.portfolioId == pid && Counts(pos)
      then Mark(h, pos, prices) * Abs(pos.quantity) * 0.25 else 0.0
  }

  datatype MarginStatus = NORMAL | MARGIN_CALL | FORCED_LIQUIDATION

  /** What the price cache knows: the latest prices, and the symbols whose price is too old. */
  datatype PriceCache = PriceCache(prices: Prices, stale: set<Symbol>)

  function PricesOf(cache: Option<PriceCache>): Prices {
    match cache
    case Some(c) => c.prices
    case None => map[]
  }

  /** A position the cache has no fresh price for. */
  predicate Unpriced(h: Holding, cache: Option<PriceCache>) {
    h.symbol !in PricesOf(cache) || (cache.Some? && h.symbol in cache.value.stale)
  }

  predicate AnyUnpriced(positions: map<Holding, Position>, pid: Id, cache: Option<PriceCache>) {
    exists h | h in positions :: h.portfolioId == pid && Counts(positions[h]) && Unpriced(h, cache)
  }

  /** The figures as they are shown, with four decimals. */
  datatype Report = Report(
    totalCash: real, lockedCash: real, availableCash: real, marketValue: real,
    unrealizedPnl: real, realizedPnl: real, totalNav: real,
    isMarginEnabled: bool, lockedMargin: real,
    longMarketValue: real, shortLiabilityValue: real, grossExposure: real,
    initialMargin: real, maintenanceMargin: real, usedMargin: real, freeMargin: real,
    marginLevel: Option<real>, buyingPower: real, marginStatus: MarginStatus, isStale: bool)

  /** Ratios and statuses derived from the accumulated totals. */
  function MarginLevel(equity: real, maintenanceMargin: real): Option<real> {
    if maintenanceMargin > 0.0 then Some(equity / maintenanceMargin * 100.0) else None
  }

  function StatusOf(level: Option<real>): MarginStatus {
    match level
    case None => NORMAL
    case Some(ml) => if ml < 100.0 then FORCED_LIQUIDATION else if ml < 120.0 then MARGIN_CALL else NORMAL
  }

  ghost function Equity(db: Db, pid: Id, prices: Prices): real
    requires pid in db.portfolios
  {
    db.portfolios[pid].totalCash
      + (Sum(db.positions, LongValue(pid, prices)) - Sum(db.positions, ShortValue(pid, prices)))
  }

  ghost function Maintenance(db: Db, pid: Id, prices: Prices): real {
    Sum(db.positions, MaintenanceMargin(pid, prices))
  }
}
