/** Why the liquidation worker may pick greedily: closing a whole position at the valuation's own price
    leaves equity alone, so the position with the largest margin contribution is the best one to close. */
module Greedy {
  import opened Prelude
  import opened Sums
  import opened Liquidity
  import opened Domain
  import opened Trade
  import opened OrderSpec
  import opened Valuation
  import opened LiquidationSpec
  import opened Conservation

  /** A fill that closes a whole position at its mark. */
  predicate ClosesWhole(db: Db, o: Order, dto: FillOrderDto, prices: Prices) {
    && o.portfolioId in db.portfolios && HoldingOf(o) in db.positions
    && var pos := db.positions[HoldingOf(o)];
    && Counts(pos)
    && o.side == (if pos.quantity > 0.0 then SELL else BUY)
    && dto.quantity == Abs(pos.quantity)
    && dto.price == Mark(HoldingOf(o), pos, prices)
  }

  lemma EquityAsNet(db: Db, pid: Id, prices: Prices)
    requires pid in db.portfolios
    ensures Equity(db, pid, prices) == db.portfolios[pid].totalCash + Sum(db.positions, NetValue(pid, prices))
  {
    SumSplit(db.positions, LongValue(pid, prices), NetValue(pid, prices), ShortValue(pid, prices));
  }

  lemma ValueOfWhole(h: Holding, pos: Position, pid: Id, prices: Prices, side: Side, dto: FillOrderDto)
    requires Counts(pos) && h.portfolioId == pid && side == (if pos.quantity > 0.0 then SELL else BUY)
    requires dto.quantity == Abs(pos.quantity) && dto.price == Mark(h, pos, prices)
    ensures NetValue(pid, prices)(h, pos) == -Signed(side, Cost(dto))
    ensures MaintenanceMargin(pid, prices)(h, pos) == Cost(dto) * 0.25
  {
    hide Mark;
    if pos.quantity > 0.0 {
      assert LongValue(pid, prices)(h, pos) == Cost(dto) && ShortValue(pid, prices)(h, pos) == 0.0;
    } else {
      assert LongValue(pid, prices)(h, pos) == 0.0 && ShortValue(pid, prices)(h, pos) == Cost(dto);
    }
  }

  lemma ClosedIsFlat(held: Position, o: Order, dto: FillOrderDto)
    requires o.side == (if held.quantity > 0.0 then SELL else BUY) && dto.quantity == Abs(held.quantity)
    ensures PositionFilled(held, o, dto).status == CLOSED && PositionFilled(held, o, dto).quantity == 0.0
  {
    hide Entered, Realized;
  }

  lemma NoValue(h: Holding, pos: Position, pid: Id, prices: Prices)
    requires !Counts(pos)
    ensures NetValue(pid, prices)(h, pos) == 0.0 && MaintenanceMargin(pid, prices)(h, pos) == 0.0
  {
    assert LongValue(pid, prices)(h, pos) == 0.0 && ShortValue(pid, prices)(h, pos) == 0.0;
  }

  lemma FilledCash(p: Portfolio, o: Order, dto: FillOrderDto)
    ensures PortfolioFilled(p, o, dto).totalCash == p.totalCash - Signed(o.side, Cost(dto))
  {}

  /** Closing a whole position at its mark keeps equity and frees exactly its maintenance margin. */
  lemma CloseAtMark(db: Db, o: Order, dto: FillOrderDto, prices: Prices)
    requires ClosesWhole(db, o, dto, prices)
    ensures Equity(Filled(db, o, dto), o.portfolioId, prices) == Equity(db, o.portfolioId, prices)
    ensures Maintenance(Filled(db, o, dto), o.portfolioId, prices)
      == Maintenance(db, o.portfolioId, prices) - Cost(dto) * 0.25
  {
    hide Mark, PortfolioFilled, PositionFilled, Equity, Cost, Realized, FillEntries, Signed, NetValue;
    hide MaintenanceMargin;
    var pid, h, db' := o.portfolioId, HoldingOf(o), Filled(db, o, dto);
    var pos, after := db.positions[h], PositionFilled(db.positions[h], o, dto);
    EquityAsNet(db, pid, prices);
    EquityAsNet(db', pid, prices);
    FilledCash(db.portfolios[pid], o, dto);
    ValueOfWhole(h, pos, pid, prices, o.side, dto);
    ClosedIsFlat(pos, o, dto);
    NoValue(h, after, pid, prices);
    SumWrite(db.positions, h, after, NetValue(pid, prices));
    SumWrite(db.positions, h, after, MaintenanceMargin(pid, prices));
  }

  lemma CloseLowersMaintenance(db: Db, o: Order, dto: FillOrderDto, prices: Prices)
    requires ClosesWhole(db, o, dto, prices) && dto.price > 0.0
    ensures Maintenance(Filled(db, o, dto), o.portfolioId, prices) < Maintenance(db, o.portfolioId, prices)
  {
    hide Filled, Maintenance, Mark;
    CloseAtMark(db, o, dto, prices);
    PositiveCost(dto);
  }

  lemma PositiveCost(dto: FillOrderDto)
    requires dto.quantity > 0.0 && dto.price > 0.0
    ensures Cost(dto) > 0.0
  {}

  /** The ranking compares twice the maintenance margin of each position. */
  lemma ContributionIsCost(symbol: Symbol, pos: Position, prices: Prices, pid: Id, dto: FillOrderDto)
    requires symbol in prices && pos.quantity != 0.0
    requires dto.quantity == Abs(pos.quantity) && dto.price == Mark(Holding(pid, symbol), pos, prices)
    ensures CandidateOf(symbol, pos.quantity, prices).imContribution == Cost(dto) * 0.50
  {
    hide CalculateExecutablePrice;
  }

  /** One outcome is at least as good as another: margin is cleared, or the level is no lower. */
  predicate AtLeastAsGood(level: Option<real>, other: Option<real>) {
    level.None? || (other.Some? && level.value >= other.value)
  }

  lemma QuotientOrder(e: real, m: real, m': real)
    requires 0.0 < m <= m'
    ensures e / m >= e / m' <==> e >= 0.0 || m == m'
  {
    var x, y := e / m, e / m';
    assert x * m == e && y * m' == e;
    QuotientCases(e, m, m', x, y);
  }

  lemma QuotientCases(e: real, m: real, m': real, x: real, y: real)
    requires 0.0 < m <= m' && x * m == e && y * m' == e
    ensures x >= y <==> e >= 0.0 || m == m'
  {
    if m == m' {
      assert (x - y) * m == 0.0;
    }
  }

  /** With the same equity, less maintenance margin is better exactly when equity is not negative, unless
      margin is cleared or nothing differs. */
  lemma LessMarginIsBetter(e: real, m: real, m': real)
    requires m <= m'
    ensures AtLeastAsGood(MarginLevel(e, m), MarginLevel(e, m')) <==> (m <= 0.0 || e >= 0.0 || m == m')
  {
    if m > 0.0 { QuotientOrder(e, m, m'); }
  }

  /** The candidate ranked first beats every other single close, with all prices known, exactly when equity
      is not negative - or the close clears the margin, or both free the same. A negative equity turns the
      ranking round: the level is then best for the smallest position. */
  lemma GreedyIsBest(db: Db, prices: Prices, top: Candidate, other: Candidate,
                     o: Order, dto: FillOrderDto, o': Order, dto': FillOrderDto, pid: Id)
    requires RankedFirst(top, Candidates(db, pid, prices)) && other in Candidates(db, pid, prices)
    requires top.symbol in prices && other.symbol in prices
    requires HoldingOf(o) == Holding(pid, top.symbol) && HoldingOf(o') == Holding(pid, other.symbol)
    requires ClosesWhole(db, o, dto, prices) && ClosesWhole(db, o', dto', prices)
    ensures var (e, m, m') := (Equity(db, pid, prices), Maintenance(Filled(db, o, dto), pid, prices),
                               Maintenance(Filled(db, o', dto'), pid, prices));
            && Equity(Filled(db, o, dto), pid, prices) == e && Equity(Filled(db, o', dto'), pid, prices) == e
            && m <= m'
            && (AtLeastAsGood(MarginLevel(e, m), MarginLevel(e, m')) <==> (m <= 0.0 || e >= 0.0 || m == m'))
  {
    hide Equity, Maintenance, Filled, Cost, Mark, MarginLevel, CandidateOf, Candidates;
    CloseAtMark(db, o, dto, prices);
    CloseAtMark(db, o', dto', prices);
    CandidateHolding(db, pid, prices, top);
    CandidateHolding(db, pid, prices, other);
    ContributionIsCost(top.symbol, db.positions[HoldingOf(o)], prices, pid, dto);
    ContributionIsCost(other.symbol, db.positions[HoldingOf(o')], prices, pid, dto');
    LessMarginIsBetter(Equity(db, pid, prices), Maintenance(Filled(db, o, dto), pid, prices),
                       Maintenance(Filled(db, o', dto'), pid, prices));
  }
}
