/** The valuation in plain numbers: at what price a position is valued, and what a report shows. */
module ValuationTerms {
  import opened Prelude
  import opened Sums
  import opened Liquidity
  import opened Domain
  import opened OrderSpec
  import opened Valuation
  import opened ValuationServices
  import opened EngineTerms

  /** The price a position could be closed at is half a spread worse than the cached price - or, without one, than the
      price it was entered at: below it for a long position, above it for a short one. */
  lemma MarkIsHalfASpreadWorse(h: Holding, pos: Position, prices: Prices)
    requires pos.quantity != 0.0
    ensures var ref := if h.symbol in prices then prices[h.symbol] else pos.average;
            && (pos.quantity > 0.0 ==> Mark(h, pos, prices) == ref - Listed(h.symbol).half < ref)
            && (pos.quantity < 0.0 ==> Mark(h, pos, prices) == ref + Listed(h.symbol).half > ref)
  {
    hide Listed, ExecPrice;
    var ref, m := Reference(h, pos, prices), Listed(h.symbol);
    ExecPriceCharged(if pos.quantity > 0.0 then SELL else BUY, h.symbol, ref, 0.0);
    FirstLevel(m.depth);
  }

  lemma FirstLevel(depth: real)
    requires depth > 0.0
    ensures (0.0 / depth).Floor == 0
  {}

  /** What one open position is worth to close now. */
  function ClosingPrice(h: Holding, pos: Position, prices: Prices): real {
    var ref := if h.symbol in prices then prices[h.symbol] else pos.average;
    if pos.quantity > 0.0 then ref - Listed(h.symbol).half else ref + Listed(h.symbol).half
  }

  /** A position that is still held. */
  predicate IsOpen(pos: Position) {
    pos.status.OPEN? && pos.quantity != 0.0
  }

  ghost predicate OnlyOpen(db: Db, pid: Id, h: Holding) {
    && h in db.positions && h.portfolioId == pid && IsOpen(db.positions[h])
    && forall k | k in db.positions && k.portfolioId == pid && k != h :: !IsOpen(db.positions[k])
  }

  lemma SumOfOnly(positions: map<Holding, Position>, h: Holding, term: (Holding, Position) -> real)
    requires h in positions && forall k | k in positions && k != h :: term(k, positions[k]) == 0.0
    ensures Sum(positions, term) == term(h, positions[h])
  {
    SumTakeOut(positions, h, term);
    SumOfZeros(positions - {h}, term);
  }

  lemma NothingAdded(k: Holding, pos: Position, pid: Id, prices: Prices)
    requires k.portfolioId != pid || !IsOpen(pos)
    ensures LongValue(pid, prices)(k, pos) == 0.0 && ShortValue(pid, prices)(k, pos) == 0.0
    ensures Unrealized(pid, prices)(k, pos) == 0.0
    ensures InitialMargin(pid, prices)(k, pos) == 0.0 && MaintenanceMargin(pid, prices)(k, pos) == 0.0
  {}

  lemma OthersAddNothing(db: Db, pid: Id, h: Holding, prices: Prices)
    requires OnlyOpen(db, pid, h)
    ensures forall k | k in db.positions && k != h :: LongValue(pid, prices)(k, db.positions[k]) == 0.0
    ensures forall k | k in db.positions && k != h :: ShortValue(pid, prices)(k, db.positions[k]) == 0.0
    ensures forall k | k in db.positions && k != h :: Unrealized(pid, prices)(k, db.positions[k]) == 0.0
    ensures forall k | k in db.positions && k != h :: InitialMargin(pid, prices)(k, db.positions[k]) == 0.0
    ensures forall k | k in db.positions && k != h :: MaintenanceMargin(pid, prices)(k, db.positions[k]) == 0.0
  {
    hide LongValue, ShortValue, Unrealized, InitialMargin, MaintenanceMargin, IsOpen;
    forall k | k in db.positions && k != h
      ensures LongValue(pid, prices)(k, db.positions[k]) == 0.0 && ShortValue(pid, prices)(k, db.positions[k]) == 0.0
      ensures Unrealized(pid, prices)(k, db.positions[k]) == 0.0
      ensures InitialMargin(pid, prices)(k, db.positions[k]) == 0.0
      ensures MaintenanceMargin(pid, prices)(k, db.positions[k]) == 0.0
    {
      NothingAdded(k, db.positions[k], pid, prices);
    }
  }

  lemma OneAdds(h: Holding, pos: Position, prices: Prices, price: real)
    requires IsOpen(pos) && price == ClosingPrice(h, pos, prices)
    ensures var size := if pos.quantity > 0.0 then pos.quantity else -pos.quantity;
            && LongValue(h.portfolioId, prices)(h, pos) == (if pos.quantity > 0.0 then price * size else 0.0)
            && ShortValue(h.portfolioId, prices)(h, pos) == (if pos.quantity > 0.0 then 0.0 else price * size)
            && Unrealized(h.portfolioId, prices)(h, pos)
                 == (if pos.quantity > 0.0 then (price - pos.average) * size else (pos.average - price) * size)
            && InitialMargin(h.portfolioId, prices)(h, pos) == price * size * 0.5
            && MaintenanceMargin(h.portfolioId, prices)(h, pos) == price * size * 0.25
  {
    MarkIsHalfASpreadWorse(h, pos, prices);
    hide Listed, Mark;
  }

  /** The sums of a portfolio with one open position. */
  lemma TotalsOfOne(db: Db, pid: Id, h: Holding, prices: Prices)
    requires OnlyOpen(db, pid, h)
    ensures var pos, price := db.positions[h], ClosingPrice(h, db.positions[h], prices);
            var size := if pos.quantity > 0.0 then pos.quantity else -pos.quantity;
            && Sum(db.positions, LongValue(pid, prices)) == (if pos.quantity > 0.0 then price * size else 0.0)
            && Sum(db.positions, ShortValue(pid, prices)) == (if pos.quantity > 0.0 then 0.0 else price * size)
            && Sum(db.positions, Unrealized(pid, prices))
                 == (if pos.quantity > 0.0 then (price - pos.average) * size else (pos.average - price) * size)
            && Sum(db.positions, InitialMargin(pid, prices)) == price * size * 0.5
            && Sum(db.positions, MaintenanceMargin(pid, prices)) == price * size * 0.25
  {
    hide ClosingPrice, LongValue, ShortValue, Unrealized, InitialMargin, MaintenanceMargin;
    OthersAddNothing(db, pid, h, prices);
    OneAdds(h, db.positions[h], prices, ClosingPrice(h, db.positions[h], prices));
    SumOfOnly(db.positions, h, LongValue(pid, prices));
    SumOfOnly(db.positions, h, ShortValue(pid, prices));
    SumOfOnly(db.positions, h, Unrealized(pid, prices));
    SumOfOnly(db.positions, h, InitialMargin(pid, prices));
    SumOfOnly(db.positions, h, MaintenanceMargin(pid, prices));
  }

  /** The report on a portfolio with one open position: its value at the closing price, the profit against the entry
      price, half of the value as initial and a quarter as maintenance margin, and what remains of cash; it is stale
      exactly when the cache has no price for the position, or an old one. */
  lemma ReportOnOne(db: Db, pid: Id, h: Holding, cache: PriceCache, r: Report)
    requires pid in db.portfolios && OnlyOpen(db, pid, h) && Reports(db, pid, Some(cache), r)
    ensures var p, pos, price := db.portfolios[pid], db.positions[h], ClosingPrice(h, db.positions[h], cache.prices);
            var isLong := pos.quantity > 0.0;
            var size := if isLong then pos.quantity else -pos.quantity;
            var value := price * size;
            var net := if isLong then value else -value;
            && r.longMarketValue == (if isLong then ToFixed4(value) else ToFixed4(0.0))
            && r.shortLiabilityValue == (if isLong then ToFixed4(0.0) else ToFixed4(value))
            && r.marketValue == ToFixed4(net) && r.grossExposure == ToFixed4(value)
            && r.unrealizedPnl
                 == ToFixed4(if isLong then (price - pos.average) * size else (pos.average - price) * size)
            && r.initialMargin == r.usedMargin == ToFixed4(value * 0.5) && r.maintenanceMargin == ToFixed4(value * 0.25)
            && r.totalNav == ToFixed4(p.totalCash + net)
            && r.freeMargin == ToFixed4(p.totalCash + net - value * 0.5 - p.lockedMargin)
            && (r.isStale <==> h.symbol !in cache.prices || h.symbol in cache.stale)
  {
    hide ClosingPrice, LongValue, ShortValue, Unrealized, InitialMargin, MaintenanceMargin, RealizedPnl, ToFixed4;
    TotalsOfOne(db, pid, h, cache.prices);
    StaleOfOne(db, pid, h, cache);
    hide AnyUnpriced;
  }

  lemma StaleOfOne(db: Db, pid: Id, h: Holding, cache: PriceCache)
    requires OnlyOpen(db, pid, h)
    ensures AnyUnpriced(db.positions, pid, Some(cache)) <==> h.symbol !in cache.prices || h.symbol in cache.stale
  {}

  /** The status of any portfolio follows equity and maintenance margin directly: nothing to maintain, or equity of
      120% of it, is NORMAL; less than all of it is FORCED_LIQUIDATION. */
  lemma StatusByEquity(db: Db, pid: Id, cache: Option<PriceCache>, r: Report)
    requires pid in db.portfolios && Reports(db, pid, cache, r)
    ensures var equity, needed := Equity(db, pid, PricesOf(cache)), Maintenance(db, pid, PricesOf(cache));
            && (r.marginStatus.FORCED_LIQUIDATION? <==> needed > 0.0 && equity < needed)
            && (r.marginStatus.MARGIN_CALL? <==> needed > 0.0 && needed <= equity && equity * 5.0 < needed * 6.0)
            && (r.marginStatus.NORMAL? <==> needed <= 0.0 || equity * 5.0 >= needed * 6.0)
            && (r.marginLevel.None? <==> needed <= 0.0)
  {
    hide Equity, Maintenance, ToFixed4, AnyUnpriced, FreeMargin;
    var equity, needed := Equity(db, pid, PricesOf(cache)), Maintenance(db, pid, PricesOf(cache));
    if needed > 0.0 { PercentOf(equity, needed, equity / needed); }
  }

  lemma PercentOf(equity: real, needed: real, x: real)
    requires needed > 0.0 && x == equity / needed
    ensures x * 100.0 < 100.0 <==> equity < needed
    ensures x * 100.0 < 120.0 <==> equity * 5.0 < needed * 6.0
  {
    ProductIs(equity, needed, x);
    PercentOfProduct(equity, needed, x);
  }

  lemma PercentOfProduct(equity: real, needed: real, x: real)
    requires needed > 0.0 && x * needed == equity
    ensures x * 100.0 < 100.0 <==> equity < needed
    ensures x * 100.0 < 120.0 <==> equity * 5.0 < needed * 6.0
  {
    ScaledOrder(x, 1.0, needed);
    ScaledOrder(x, 1.2, needed);
  }

  lemma ProductIs(equity: real, needed: real, x: real)
    requires needed > 0.0 && x == equity / needed
    ensures x * needed == equity
  {}

  lemma ScaledOrder(x: real, y: real, needed: real)
    requires needed > 0.0
    ensures x < y <==> x * needed < y * needed
  {
    if x < y { assert (y - x) * needed > 0.0; } else { assert (x - y) * needed >= 0.0; }
  }

  /** What is shown is the nearest figure with four decimals, the one further from zero when two are as near. */
  lemma ShownIsNearest(x: real) returns (n: int)
    ensures ToFixed4(x) * 10000.0 == n as real
    ensures -0.00005 <= ToFixed4(x) - x <= 0.00005
    ensures ToFixed4(x) - x == 0.00005 ==> x > 0.0
    ensures ToFixed4(x) - x == -0.00005 ==> x < 0.0
  {
    if x >= 0.0 {
      n := (x * 10000.0 + 0.5).Floor;
    } else {
      n := -(0.5 - x * 10000.0).Floor;
    }
  }
}
