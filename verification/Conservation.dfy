/** Whole-run conservation of value: a portfolio's net asset value at cost, and the double-entry ledger
    against the balances it mirrors. Only a fill moves either, and it moves both sides at once. */
module Conservation {
  import opened Prelude
  import opened Sums
  import opened Liquidity
  import opened Domain
  import opened Trade
  import opened OrderSpec
  import opened Valuation
  import opened Actions
  import opened Reservations
  import opened Steps

  // ---- net asset value -----------------------------------------------------------------------

  function BasisTerm(pid: Id): (Holding, Position) -> real {
    (h: Holding, pos: Position) => if h.portfolioId == pid then Basis(pos) else 0.0
  }

  /** Cash plus positions at entry price, minus the profit already taken. */
  ghost function NavAtCost(db: Db, pid: Id): real
    requires pid in db.portfolios
  {
    db.portfolios[pid].totalCash + Sum(db.positions, BasisTerm(pid))
  }

  lemma SameHoldingSameBasis(pos: Position, pos': Position)
    requires SameHolding(pos, pos')
    ensures Basis(pos') == Basis(pos)
  {
    assert pos'.quantity == pos.quantity && pos'.average == pos.average;
  }

  lemma NoBasis()
    ensures Basis(NoPosition) == 0.0
  {}

  lemma BasisTermIs(pid: Id, h: Holding, pos: Position, basis: real)
    requires Basis(pos) == basis
    ensures BasisTerm(pid)(h, pos) == if h.portfolioId == pid then basis else 0.0
  {}

  lemma QuietRowBasis(h: Holding, pos: Position, pos': Position, pid: Id)
    requires SameHolding(pos, pos')
    ensures BasisTerm(pid)(h, pos') == BasisTerm(pid)(h, pos)
    ensures pos == NoPosition ==> BasisTerm(pid)(h, pos') == 0.0
  {
    SameHoldingSameBasis(pos, pos');
    NoBasis();
    var basis := Basis(pos);
    BasisTermIs(pid, h, pos, basis);
    BasisTermIs(pid, h, pos', basis);
  }

  lemma QuietKeepsBasis(before: map<Holding, Position>, after: map<Holding, Position>, pid: Id)
    requires before.Keys <= after.Keys
    requires forall h | h in after :: SameHolding(if h in before then before[h] else NoPosition, after[h])
    ensures Sum(after, BasisTerm(pid)) == Sum(before, BasisTerm(pid))
  {
    forall h | h in after
      ensures h in before ==> BasisTerm(pid)(h, before[h]) == BasisTerm(pid)(h, after[h])
      ensures h !in before ==> BasisTerm(pid)(h, after[h]) == 0.0
    {
      QuietRowBasis(h, if h in before then before[h] else NoPosition, after[h], pid);
    }
    SumAgree(before, after, BasisTerm(pid), BasisTerm(pid));
  }

  lemma QuietKeepsNav(db: Db, db': Db, pid: Id)
    requires pid in db.portfolios && MoneyStays(db, db')
    ensures NavAtCost(db', pid) == NavAtCost(db, pid)
  {
    assert SameMoney(db.portfolios[pid], db'.portfolios[pid]);
    QuietKeepsBasis(db.positions, db'.positions, pid);
  }

  lemma SignedCost(side: Side, q: real, price: real)
    ensures Signed(side, q) * price == Signed(side, q * price)
  {}

  /** What a fill adds to its position's basis is what it takes from the cash. */
  lemma FilledBasis(held: Position, o: Order, dto: FillOrderDto)
    requires dto.quantity > 0.0
    ensures Basis(PositionFilled(held, o, dto)) == Basis(held) + Signed(o.side, Cost(dto))
  {
    var d := Signed(o.side, dto.quantity);
    TradeConservesBasis(held, d, dto.price);
    SignedCost(o.side, dto.quantity, dto.price);
    SameHoldingSameBasis(Traded(held, d, dto.price), PositionFilled(held, o, dto));
  }

  lemma WriteMovesBasis(positions: map<Holding, Position>, h: Holding, held: Position, after: Position, pid: Id,
                        before: real, move: real)
    requires held == (if h in positions then positions[h] else NoPosition)
    requires Basis(held) == before && Basis(after) == before + move
    ensures Sum(positions[h := after], BasisTerm(pid)) == Sum(positions, BasisTerm(pid))
      + (if h.portfolioId == pid then move else 0.0)
  {
    hide Basis;
    NoBasis();
    BasisTermIs(pid, h, held, before);
    BasisTermIs(pid, h, after, before + move);
    SumWrite(positions, h, after, BasisTerm(pid));
  }

  lemma FillMovesBasis(positions: map<Holding, Position>, o: Order, dto: FillOrderDto, held: Position, pid: Id,
                       cost: real)
    requires dto.quantity > 0.0 && cost == Cost(dto)
    requires held == (if HoldingOf(o) in positions then positions[HoldingOf(o)] else NoPosition)
    ensures Sum(positions[HoldingOf(o) := PositionFilled(held, o, dto)], BasisTerm(pid))
         == Sum(positions, BasisTerm(pid)) + (if o.portfolioId == pid then Signed(o.side, cost) else 0.0)
  {
    FilledBasis(held, o, dto);
    WriteMovesBasis(positions, HoldingOf(o), held, PositionFilled(held, o, dto), pid, Basis(held),
                    Signed(o.side, cost));
  }

  lemma FillMovesCash(p: Portfolio, o: Order, dto: FillOrderDto, cost: real)
    requires cost == Cost(dto)
    ensures PortfolioFilled(p, o, dto).totalCash == p.totalCash - Signed(o.side, cost)
  {}

  lemma FillKeepsNav(db: Db, o: Order, dto: FillOrderDto, pid: Id)
    requires o.portfolioId in db.portfolios && pid in db.portfolios && dto.quantity > 0.0
    ensures NavAtCost(Filled(db, o, dto), pid) == NavAtCost(db, pid)
  {
    var cost := Cost(dto);
    FillMovesCash(db.portfolios[o.portfolioId], o, dto, cost);
    FillMovesBasis(db.positions, o, dto, PositionAt(db, HoldingOf(o)), pid, cost);
  }

  lemma ActKeepsNav(db: Db, a: Action, pid: Id)
    requires Shape(db) && pid in db.portfolios
    ensures pid in Act(db, a).portfolios && NavAtCost(Act(db, a), pid) == NavAtCost(db, pid)
  {
    if a.Fill? {
      FillAllOrNothing(db, a.fill);
      if Act(db, a) != db { FillKeepsNav(db, db.orders[a.fill.orderId], a.fill, pid); }
    } else {
      ActIsQuiet(db, a);
      QuietKeepsNav(db, Act(db, a), pid);
    }
  }

  /** Over every run, through long, short and zero-crossing trades at any prices, net asset value at
      cost stays what it was. */
  lemma {:induction false} NavConserved(db: Db, actions: seq<Action>, pid: Id)
    requires Shape(db) && pid in db.portfolios
    ensures Shape(Run(db, actions)) && pid in Run(db, actions).portfolios
    ensures NavAtCost(Run(db, actions), pid) == NavAtCost(db, pid)
  {
    if actions != [] {
      var before := actions[..|actions| - 1];
      NavConserved(db, before, pid);
      ActKeepsShape(Run(db, before), actions[|actions| - 1]);
      ActKeepsNav(Run(db, before), actions[|actions| - 1], pid);
    }
  }

  /** Net market value of a position: what it adds to equity. */
  function NetValue(pid: Id, prices: Prices): (Holding, Position) -> real {
    (h: Holding, pos: Position) => LongValue(pid, prices)(h, pos) - ShortValue(pid, prices)(h, pos)
  }

  function Profit(pid: Id, prices: Prices): (Holding, Position) -> real {
    (h: Holding, pos: Position) => RealizedPnl(pid)(h, pos) + Unrealized(pid, prices)(h, pos)
  }

  lemma LongAtMark(q: real, average: real, mark: real)
    ensures mark * q == q * average + (mark - average) * q
  {}

  lemma ShortAtMark(q: real, average: real, mark: real)
    requires q < 0.0
    ensures 0.0 - mark * Abs(q) == q * average + (average - mark) * Abs(q)
  {}

  /** From the three marked values of a row to the row identity, without any product. */
  lemma RowValues(h: Holding, pos: Position, pid: Id, prices: Prices, long: real, short: real, unrealized: real)
    requires LongValue(pid, prices)(h, pos) == long && ShortValue(pid, prices)(h, pos) == short
    requires h.portfolioId == pid && Unrealized(pid, prices)(h, pos) == unrealized
    requires long - short == Basis(pos) + pos.realizedPnl + unrealized
    ensures NetValue(pid, prices)(h, pos) == BasisTerm(pid)(h, pos) + Profit(pid, prices)(h, pos)
  {}

  lemma LongRow(h: Holding, pos: Position, pid: Id, prices: Prices, mark: real)
    requires PositionOk(pos) && h.portfolioId == pid && pos.quantity > 0.0 && mark == Mark(h, pos, prices)
    ensures NetValue(pid, prices)(h, pos) == BasisTerm(pid)(h, pos) + Profit(pid, prices)(h, pos)
  {
    LongAtMark(pos.quantity, pos.average, mark);
    RowValues(h, pos, pid, prices, mark * pos.quantity, 0.0, (mark - pos.average) * pos.quantity);
  }

  lemma ShortRow(h: Holding, pos: Position, pid: Id, prices: Prices, mark: real)
    requires PositionOk(pos) && h.portfolioId == pid && pos.quantity < 0.0 && mark == Mark(h, pos, prices)
    ensures NetValue(pid, prices)(h, pos) == BasisTerm(pid)(h, pos) + Profit(pid, prices)(h, pos)
  {
    ShortAtMark(pos.quantity, pos.average, mark);
    RowValues(h, pos, pid, prices, 0.0, mark * Abs(pos.quantity), (pos.average - mark) * Abs(pos.quantity));
  }

  lemma FlatRow(h: Holding, pos: Position, pid: Id, prices: Prices)
    requires h.portfolioId == pid && pos.quantity == 0.0
    ensures NetValue(pid, prices)(h, pos) == BasisTerm(pid)(h, pos) + Profit(pid, prices)(h, pos)
  {
    assert pos.quantity * pos.average == 0.0;
    RowValues(h, pos, pid, prices, 0.0, 0.0, 0.0);
  }

  lemma RowAtMark(h: Holding, pos: Position, pid: Id, prices: Prices)
    requires PositionOk(pos)
    ensures NetValue(pid, prices)(h, pos) == BasisTerm(pid)(h, pos) + Profit(pid, prices)(h, pos)
  {
    if h.portfolioId == pid {
      if pos.quantity > 0.0 { LongRow(h, pos, pid, prices, Mark(h, pos, prices)); }
      else if pos.quantity < 0.0 { ShortRow(h, pos, pid, prices, Mark(h, pos, prices)); }
      else { FlatRow(h, pos, pid, prices); }
    } else {
      assert LongValue(pid, prices)(h, pos) == 0.0 && ShortValue(pid, prices)(h, pos) == 0.0;
      assert RealizedPnl(pid)(h, pos) == 0.0 && Unrealized(pid, prices)(h, pos) == 0.0;
    }
  }

  /** The reported equity is net asset value at cost plus all profit, realized and not. */
  lemma EquityIsCostPlusProfit(db: Db, pid: Id, prices: Prices)
    requires PositionsOk(db.positions, db.portfolios) && pid in db.portfolios
    ensures Equity(db, pid, prices)
         == NavAtCost(db, pid) + Sum(db.positions, RealizedPnl(pid)) + Sum(db.positions, Unrealized(pid, prices))
  {
    forall h | h in db.positions
      ensures NetValue(pid, prices)(h, db.positions[h]) == BasisTerm(pid)(h, db.positions[h])
        + Profit(pid, prices)(h, db.positions[h])
    {
      RowAtMark(h, db.positions[h], pid, prices);
    }
    SumSplit(db.positions, NetValue(pid, prices), BasisTerm(pid), Profit(pid, prices));
    SumSplit(db.positions, Profit(pid, prices), RealizedPnl(pid), Unrealized(pid, prices));
    SumSplit(db.positions, LongValue(pid, prices), NetValue(pid, prices), ShortValue(pid, prices));
  }

  /** NAV identity: after any run and at any prices the reported equity is the starting value at cost
      plus the realized and the unrealized profit. */
  lemma NavIdentity(db: Db, actions: seq<Action>, pid: Id, prices: Prices)
    requires Shape(db) && pid in db.portfolios
    ensures pid in Run(db, actions).portfolios
    ensures Equity(Run(db, actions), pid, prices)
         == NavAtCost(db, pid) + Sum(Run(db, actions).positions, RealizedPnl(pid))
            + Sum(Run(db, actions).positions, Unrealized(pid, prices))
  {
    NavConserved(db, actions, pid);
    EquityIsCostPlusProfit(Run(db, actions), pid, prices);
  }
}
