/** Margin portfolios for which the liquidation worker does not do what it is there for. */
module Counterexamples {
  import opened Prelude
  import opened Sums
  import opened Liquidity
  import opened Domain
  import opened Trade
  import opened OrderSpec
  import opened Valuation
  import opened LiquidationSpec
  import opened Actions
  import opened Greedy

  const INFY: Symbol := Symbol("INFY")
  const WIPRO: Symbol := Symbol("WIPRO")

  function Long(quantity: real): Position {
    Position(quantity, 0.0, 1.0, 0.0, OPEN)
  }

  /** Both symbols are quoted so that a long position closes at 1. */
  function Quotes(): Prices {
    map[INFY := 1.025, WIPRO := 1.025]
  }

  lemma LongMarks(pid: Id, symbol: Symbol, quantity: real)
    requires (symbol == INFY || symbol == WIPRO) && quantity > 0.0
    ensures Mark(Holding(pid, symbol), Long(quantity), Quotes()) == 1.0
    ensures LongValue(pid, Quotes())(Holding(pid, symbol), Long(quantity)) == quantity
    ensures ShortValue(pid, Quotes())(Holding(pid, symbol), Long(quantity)) == 0.0
    ensures MaintenanceMargin(pid, Quotes())(Holding(pid, symbol), Long(quantity)) == quantity * 0.25
    ensures CandidateOf(symbol, quantity, Quotes()) == Candidate(symbol, quantity, quantity * 1.025, quantity * 0.50)
  {
    assert ExecPrice(SELL, symbol, 1.025, 0.0) == 1.0;
  }

  lemma SumOfOne(h: Holding, pos: Position, term: (Holding, Position) -> real)
    ensures Sum(map[h := pos], term) == term(h, pos)
  {
    SumTakeOut(map[h := pos], h, term);
    assert map[h := pos] - {h} == map[];
  }

  lemma SumOfTwo(h: Holding, pos: Position, k: Holding, pos': Position, term: (Holding, Position) -> real)
    requires h != k
    ensures Sum(map[h := pos, k := pos'], term) == term(h, pos) + term(k, pos')
  {
    SumTakeOut(map[h := pos, k := pos'], h, term);
    assert map[h := pos, k := pos'] - {h} == map[k := pos'];
    SumOfOne(k, pos', term);
  }

  // ---- the worker's key is taken -----------------------------------------------------------------

  /** User 5 has a margin portfolio with 100 shares bought on credit, and a cash portfolio. */
  function TwoPortfolios(): Db {
    Db(map[1 := Portfolio(5, -90.0, 0.0, 0.0, true), 2 := Portfolio(5, 10.0, 0.0, 0.0, false)],
       map[Holding(1, INFY) := Long(100.0)], map[], map[], map[], [])
  }

  /** In the cash portfolio the client buys one share under the key the worker is going to build. */
  function SameKeyDto(): PlaceOrderDto {
    PlaceOrderDto(5, 2, INFY, BUY, LIMIT, 1.0, Some(1.0), None, 1.0, Round(1, INFY, 0))
  }

  lemma ClientPlaces()
    ensures Run(TwoPortfolios(), [PlaceOrder(SameKeyDto(), 7, true)]) == Placed(TwoPortfolios(), SameKeyDto(), 7)
  {
    var db, place := TwoPortfolios(), PlaceOrder(SameKeyDto(), 7, true);
    assert CashToReserve(SameKeyDto()) == 1.0;
    assert Act(db, place) == Placed(db, SameKeyDto(), 7);
    assert [place][..0] == [] && Run(db, []) == db;
  }

  /** What the evaluation looks at. */
  ghost predicate Endangered(db: Db) {
    && 1 in db.portfolios && db.portfolios[1] == Portfolio(5, -90.0, 0.0, 0.0, true)
    && db.positions == map[Holding(1, INFY) := Long(100.0)]
    && (forall id | id in db.orders :: !db.orders[id].isLiquidation)
  }

  lemma EndangeredLevel(db: Db)
    requires Endangered(db)
    ensures MarginLevel(Equity(db, 1, Quotes()), Maintenance(db, 1, Quotes())) == Some(40.0) && ToFixed4(40.0) == 40.0
  {
    hide LongValue, ShortValue, MaintenanceMargin;
    var h := Holding(1, INFY);
    LongMarks(1, INFY, 100.0);
    SumOfOne(h, Long(100.0), LongValue(1, Quotes()));
    SumOfOne(h, Long(100.0), ShortValue(1, Quotes()));
    SumOfOne(h, Long(100.0), MaintenanceMargin(1, Quotes()));
    assert 10.0 / 25.0 * 100.0 == 40.0;
  }

  lemma EndangeredTop(db: Db)
    requires Endangered(db)
    ensures Candidates(db, 1, Quotes()) == {Candidate(INFY, 100.0, 102.5, 50.0)}
  {
    hide CandidateOf;
    LongMarks(1, INFY, 100.0);
    assert Holding(1, INFY) in db.positions;
    assert CandidateOf(INFY, 100.0, Quotes()) in Candidates(db, 1, Quotes());
  }

  lemma NoRoundsYet(db: Db)
    requires Endangered(db)
    ensures LiquidationIds(db, 1, INFY) == {} && !HasActiveLiquidation(db, 1)
  {
    forall id ensures id !in LiquidationIds(db, 1, INFY) {}
  }

  /** The only liquidation a portfolio in danger needs fails when its first key is taken. */
  lemma TakenKeyStopsLiquidation(db: Db, newId: Id)
    requires Endangered(db) && (5, Round(1, INFY, 0)) in db.byKey
    ensures Evaluate(db, 1, Quotes(), Quotes(), true, newId) == (db, Some(DuplicateKey))
  {
    EndangeredLevel(db);
    EndangeredTop(db);
    assert TopCandidate(db, 1, Quotes()) in {Candidate(INFY, 100.0, 102.5, 50.0)};
    NoRoundsYet(db);
    hide Equity, Maintenance, MarginLevel, ToFixed4, Candidates, TopCandidate;
  }

  /** One client order under the worker's own form of key, and the portfolio is not liquidated. */
  lemma ClientTakesTheKey() returns (db: Db, actions: seq<Action>, prices: Prices)
    ensures Initial(db) && (forall a | a in actions :: a.PlaceOrder? && a.dto.portfolioId != 1)
    ensures var now := Run(db, actions);
            && 1 in now.portfolios && now.portfolios[1].isMarginEnabled
            && MarginLevel(Equity(now, 1, prices), Maintenance(now, 1, prices)) == Some(40.0)
            && (forall newId :: Evaluate(now, 1, prices, prices, true, newId) == (now, Some(DuplicateKey)))
  {
    hide Evaluate, Equity, Maintenance, Placed, Run;
    db, actions, prices := TwoPortfolios(), [PlaceOrder(SameKeyDto(), 7, true)], Quotes();
    ClientPlaces();
    PlacedEndangered();
    var now := Run(db, actions);
    EndangeredLevel(now);
    forall newId ensures Evaluate(now, 1, prices, prices, true, newId) == (now, Some(DuplicateKey)) {
      TakenKeyStopsLiquidation(now, newId);
    }
  }

  lemma PlacedEndangered()
    ensures var db := Placed(TwoPortfolios(), SameKeyDto(), 7);
            Endangered(db) && (5, Round(1, INFY, 0)) in db.byKey
  {}

  // ---- the top-ranked close is the worse one -------------------------------------------------------

  /** A margin portfolio under water: it owes 200 and holds 100 and 50 shares worth 1 each. */
  function UnderWater(): Db {
    Db(map[1 := Portfolio(5, -200.0, 0.0, 0.0, true)],
       map[Holding(1, INFY) := Long(100.0), Holding(1, WIPRO) := Long(50.0)], map[], map[], map[], [])
  }

  function Sale(symbol: Symbol, quantity: real): Order {
    Order(7, 5, 1, symbol, SELL, MARKET, quantity, 0.0, None, None, None, None, PENDING, Round(1, symbol, 0), true,
          false)
  }

  function SaleFill(quantity: real): FillOrderDto {
    FillOrderDto(7, 1.0, quantity, quantity)
  }

  lemma UnderWaterTotals()
    ensures Equity(UnderWater(), 1, Quotes()) == -50.0 && Maintenance(UnderWater(), 1, Quotes()) == 37.5
  {
    hide LongValue, ShortValue, MaintenanceMargin;
    var h, k := Holding(1, INFY), Holding(1, WIPRO);
    LongMarks(1, INFY, 100.0);
    LongMarks(1, WIPRO, 50.0);
    SumOfTwo(h, Long(100.0), k, Long(50.0), LongValue(1, Quotes()));
    SumOfTwo(h, Long(100.0), k, Long(50.0), ShortValue(1, Quotes()));
    SumOfTwo(h, Long(100.0), k, Long(50.0), MaintenanceMargin(1, Quotes()));
  }

  lemma UnderWaterRanking()
    ensures var all := Candidates(UnderWater(), 1, Quotes());
            RankedFirst(CandidateOf(INFY, 100.0, Quotes()), all) && CandidateOf(WIPRO, 50.0, Quotes()) in all
  {
    LongMarks(1, INFY, 100.0);
    LongMarks(1, WIPRO, 50.0);
    hide CandidateOf;
    var all := Candidates(UnderWater(), 1, Quotes());
    assert Holding(1, INFY) in UnderWater().positions && Holding(1, WIPRO) in UnderWater().positions;
    assert all == {CandidateOf(INFY, 100.0, Quotes()), CandidateOf(WIPRO, 50.0, Quotes())};
  }

  lemma SaleCloses(symbol: Symbol, quantity: real)
    requires Holding(1, symbol) in UnderWater().positions
    requires UnderWater().positions[Holding(1, symbol)] == Long(quantity)
    requires quantity > 0.0
    ensures ClosesWhole(UnderWater(), Sale(symbol, quantity), SaleFill(quantity), Quotes())
    ensures Cost(SaleFill(quantity)) == quantity
  {
    hide Mark;
    LongMarks(1, symbol, quantity);
  }

  /** The level one close leaves behind. */
  lemma LevelLeft(symbol: Symbol, quantity: real)
    requires Holding(1, symbol) in UnderWater().positions
    requires UnderWater().positions[Holding(1, symbol)] == Long(quantity)
    requires quantity > 0.0
    ensures var db := Filled(UnderWater(), Sale(symbol, quantity), SaleFill(quantity));
            && 1 in db.portfolios && Equity(db, 1, Quotes()) == -50.0
            && Maintenance(db, 1, Quotes()) == 37.5 - quantity * 0.25
  {
    hide Equity, Maintenance, Cost, ClosesWhole, PortfolioFilled, PositionFilled, FillEntries, Realized;
    UnderWaterTotals();
    SaleCloses(symbol, quantity);
    CloseAtMark(UnderWater(), Sale(symbol, quantity), SaleFill(quantity), Quotes());
  }

  lemma Levels()
    ensures MarginLevel(-50.0, 12.5) == Some(-400.0) && MarginLevel(-50.0, 25.0) == Some(-200.0)
  {
    assert -50.0 / 12.5 * 100.0 == -400.0 && -50.0 / 25.0 * 100.0 == -200.0;
  }

  /** With negative equity the ranking picks the worse position: its close leaves a margin level of -400%, closing
      the other one would leave -200%. */
  lemma RankingPicksTheWorse() returns (db: Db, prices: Prices, top: Candidate, other: Candidate,
                                        o: Order, dto: FillOrderDto, o': Order, dto': FillOrderDto)
    ensures Initial(db) && RankedFirst(top, Candidates(db, 1, prices)) && other in Candidates(db, 1, prices)
    ensures HoldingOf(o) == Holding(1, top.symbol) && ClosesWhole(db, o, dto, prices)
    ensures HoldingOf(o') == Holding(1, other.symbol) && ClosesWhole(db, o', dto', prices)
    ensures 1 in db.portfolios && Equity(db, 1, prices) < 0.0
    ensures MarginLevel(Equity(Filled(db, o, dto), 1, prices), Maintenance(Filled(db, o, dto), 1, prices))
      == Some(-400.0)
    ensures MarginLevel(Equity(Filled(db, o', dto'), 1, prices), Maintenance(Filled(db, o', dto'), 1, prices))
      == Some(-200.0)
  {
    db, prices := UnderWater(), Quotes();
    top, other := CandidateOf(INFY, 100.0, prices), CandidateOf(WIPRO, 50.0, prices);
    o, dto, o', dto' := Sale(INFY, 100.0), SaleFill(100.0), Sale(WIPRO, 50.0), SaleFill(50.0);
    hide Equity, Maintenance, Filled, Cost, ClosesWhole, Candidates, MarginLevel, CandidateOf, UnderWater, Quotes, Sale;
    hide SaleFill, HoldingOf;
    UnderWaterTotals();
    UnderWaterRanking();
    UnderWaterRows();
    SaleOf(INFY, 100.0);
    SaleOf(WIPRO, 50.0);
    SaleCloses(INFY, 100.0);
    SaleCloses(WIPRO, 50.0);
    LevelLeft(INFY, 100.0);
    LevelLeft(WIPRO, 50.0);
    Levels();
  }

  lemma SaleOf(symbol: Symbol, quantity: real)
    ensures CandidateOf(symbol, quantity, Quotes()).symbol == symbol
    ensures HoldingOf(Sale(symbol, quantity)) == Holding(1, symbol)
  {}

  lemma UnderWaterRows()
    ensures var db := UnderWater();
            && Initial(db) && 1 in db.portfolios
            && Holding(1, INFY) in db.positions && db.positions[Holding(1, INFY)] == Long(100.0)
            && Holding(1, WIPRO) in db.positions && db.positions[Holding(1, WIPRO)] == Long(50.0)
  {}
}
