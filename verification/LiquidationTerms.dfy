/** The liquidation worker in plain numbers: when it cancels, waits or opens, which position it picks, and that the
    order it opens closes exactly that position. */
module LiquidationTerms {
  import opened Prelude
  import opened Liquidity
  import opened Domain
  import opened Trade
  import opened OrderSpec
  import opened Valuation
  import opened LiquidationSpec
  import opened Actions
  import opened Reservations
  import opened Greedy
  import opened OrderTerms
  import opened EngineTerms
  import opened ValuationTerms

  /** Some liquidation order of the portfolio has not ended. */
  predicate Unended(db: Db, pid: Id, id: Id) {
    && id in db.orders && db.orders[id].isLiquidation && db.orders[id].portfolioId == pid
    && db.orders[id].status !in {FILLED, CANCELLED, REJECTED, EXPIRED}
  }

  /** The portfolio's unended liquidation orders are cancelled, and nothing else happens. */
  ghost predicate CallsOff(db: Db, db': Db, pid: Id) {
    && db' == db.(orders := db'.orders) && db'.orders.Keys == db.orders.Keys
    && forall id | id in db.orders ::
         db'.orders[id] == if Unended(db, pid, id) then db.orders[id].(status := CANCELLED) else db.orders[id]
  }

  /** What closing a position would free, as the ranking sees it: half its value at the closing price, a missing price
      counting as zero. */
  function Frees(h: Holding, pos: Position, prices: Prices): real {
    var price := if h.symbol in prices then prices[h.symbol] else 0.0;
    if pos.quantity > 0.0 then (price - Listed(h.symbol).half) * pos.quantity * 0.5
    else (price + Listed(h.symbol).half) * -pos.quantity * 0.5
  }

  /** Its size at the ranking's price. */
  function Notional(h: Holding, pos: Position, prices: Prices): real {
    var price := if h.symbol in prices then prices[h.symbol] else 0.0;
    if pos.quantity > 0.0 then price * pos.quantity else price * -pos.quantity
  }

  /** The names part after their first i characters. */
  predicate PartsAt(a: string, b: string, i: nat) {
    i <= |a| && i < |b| && a[..i] == b[..i] && (i == |a| || a[i] < b[i])
  }

  /** One name comes before another: it is its beginning, or smaller where they part. */
  ghost predicate Earlier(a: string, b: string) {
    exists i: nat :: PartsAt(a, b, i)
  }

  lemma {:induction false} NameBeforeIsEarlier(a: string, b: string)
    ensures NameBefore(a, b) <==> Earlier(a, b)
    decreases |a|
  {
    if b == "" {
    } else if a == "" || a[0] < b[0] {
      assert PartsAt(a, b, 0);
    } else if a[0] == b[0] {
      NameBeforeIsEarlier(a[1..], b[1..]);
      assert a == a[..1] + a[1..] && b == b[..1] + b[1..];
      if Earlier(a[1..], b[1..]) {
        var i: nat :| PartsAt(a[1..], b[1..], i);
        assert a[..i + 1] == a[..1] + a[1..][..i] && b[..i + 1] == b[..1] + b[1..][..i];
        assert PartsAt(a, b, i + 1);
      }
      if Earlier(a, b) {
        var i: nat :| PartsAt(a, b, i);
        assert i > 0;
        assert a[1..][..i - 1] == a[..i][1..] && b[1..][..i - 1] == b[..i][1..];
        assert PartsAt(a[1..], b[1..], i - 1);
      }
    } else {
      forall i: nat ensures !PartsAt(a, b, i) { PartLater(a, b, i); }
    }
  }

  lemma PartLater(a: string, b: string, i: nat)
    requires a != "" && b != ""
    ensures PartsAt(a, b, i) ==> i == 0 || a[0] == b[0]
  {
    if PartsAt(a, b, i) && i > 0 { assert a[..i][0] == b[..i][0]; }
  }

  /** The position the worker closes first: none of the portfolio's frees more, among those that free as much none is
      larger, and among those none comes earlier by name. */
  ghost predicate ClosedFirst(positions: map<Holding, Position>, pid: Id, prices: Prices, h: Holding) {
    && h in positions && h.portfolioId == pid && positions[h].quantity != 0.0
    && forall k | k in positions && k.portfolioId == pid && positions[k].quantity != 0.0 ::
         NotAfter(h, positions[h], k, positions[k], prices)
  }

  ghost predicate NotAfter(h: Holding, pos: Position, k: Holding, pos': Position, prices: Prices) {
    || Frees(k, pos', prices) < Frees(h, pos, prices)
    || (&& Frees(k, pos', prices) == Frees(h, pos, prices)
        && (|| Notional(k, pos', prices) < Notional(h, pos, prices)
            || (Notional(k, pos', prices) == Notional(h, pos, prices) && !Earlier(k.symbol.name, h.symbol.name))))
  }

  lemma CandidateInNumbers(h: Holding, pos: Position, prices: Prices)
    requires pos.quantity != 0.0
    ensures CandidateOf(h.symbol, pos.quantity, prices)
         == Candidate(h.symbol, pos.quantity, Notional(h, pos, prices), Frees(h, pos, prices))
  {
    var free := pos.(average := 0.0);
    MarkIsHalfASpreadWorse(h, free, prices);
    hide ExecPrice, Listed;
  }

  lemma RanksByNumbers(h: Holding, pos: Position, k: Holding, pos': Position, prices: Prices)
    requires pos.quantity != 0.0 && pos'.quantity != 0.0
    ensures NotAfter(h, pos, k, pos', prices)
       <==> !RanksBefore(CandidateOf(k.symbol, pos'.quantity, prices), CandidateOf(h.symbol, pos.quantity, prices))
  {
    hide CandidateOf, Frees, Notional, NameBefore, Earlier;
    CandidateInNumbers(h, pos, prices);
    CandidateInNumbers(k, pos', prices);
    NameBeforeIsEarlier(k.symbol.name, h.symbol.name);
  }

  /** The candidate ranked first stands for the position closed first. */
  lemma FirstRanked(db: Db, pid: Id, prices: Prices, h: Holding)
    requires h in db.positions && h.portfolioId == pid && db.positions[h].quantity != 0.0
    ensures RankedFirst(CandidateOf(h.symbol, db.positions[h].quantity, prices), Candidates(db, pid, prices))
       <==> ClosedFirst(db.positions, pid, prices, h)
  {
    hide CandidateOf, NotAfter, RanksBefore;
    var top := CandidateOf(h.symbol, db.positions[h].quantity, prices);
    forall k | k in db.positions && k.portfolioId == pid && db.positions[k].quantity != 0.0
      ensures CandidateOf(k.symbol, db.positions[k].quantity, prices) in Candidates(db, pid, prices)
      ensures NotAfter(h, db.positions[h], k, db.positions[k], prices)
         <==> !RanksBefore(CandidateOf(k.symbol, db.positions[k].quantity, prices), top)
    {
      RanksByNumbers(h, db.positions[h], k, db.positions[k], prices);
    }
  }

  lemma TopIsClosedFirst(db: Db, pid: Id, prices: Prices, top: Candidate)
    requires RankedFirst(top, Candidates(db, pid, prices))
    ensures ClosedFirst(db.positions, pid, prices, Holding(pid, top.symbol))
    ensures var h := Holding(pid, top.symbol);
            top == Candidate(top.symbol, db.positions[h].quantity, Notional(h, db.positions[h], prices),
                             Frees(h, db.positions[h], prices))
  {
    hide CandidateOf, Candidates, NotAfter, RankedFirst;
    CandidateHoldingOf(db, pid, prices, top);
    var h := Holding(pid, top.symbol);
    FirstRanked(db, pid, prices, h);
    CandidateInNumbers(h, db.positions[h], prices);
  }

  lemma CandidateHoldingOf(db: Db, pid: Id, prices: Prices, top: Candidate)
    requires RankedFirst(top, Candidates(db, pid, prices))
    ensures Holding(pid, top.symbol) in db.positions && db.positions[Holding(pid, top.symbol)].quantity != 0.0
    ensures top == CandidateOf(top.symbol, db.positions[Holding(pid, top.symbol)].quantity, prices)
  {
    CandidateHolding(db, pid, prices, top);
  }

  // ---- what an evaluation does -----------------------------------------------------------------

  /** The portfolio holds something the ranking could pick. */
  ghost predicate HoldsSome(db: Db, pid: Id) {
    exists h | h in db.positions :: h.portfolioId == pid && db.positions[h].quantity != 0.0
  }

  ghost predicate AnyUnended(db: Db, pid: Id) {
    exists id | id in db.orders :: Unended(db, pid, id)
  }

  /** The key of the next round. */
  function NextKey(db: Db, h: Holding): IdempotencyKey {
    Round(h.portfolioId, h.symbol, |LiquidationIds(db, h.portfolioId, h.symbol)|)
  }

  /** One new order, at the market and waiting to be validated, that takes the position to zero. */
  ghost predicate OpensFor(db: Db, db': Db, h: Holding, newId: Id)
    requires h in db.positions && h.portfolioId in db.portfolios
  {
    && newId in db'.orders
    && var o := db'.orders[newId];
    && o == Order(newId, db.portfolios[h.portfolioId].userId, h.portfolioId, h.symbol, o.side, MARKET, o.requested, 0.0,
                  None, None, None, None, RECEIVED, NextKey(db, h), true, false)
    && o.requested > 0.0 && db.positions[h].quantity + (if o.side.BUY? then o.requested else -o.requested) == 0.0
    && db' == db.(orders := db.orders[newId := o], byKey := db.byKey[(o.userId, o.key) := newId])
  }

  lemma LevelInNumbers(equity: real, needed: real)
    requires needed > 0.0
    ensures var level := ToFixed4(equity / needed * 100.0);
            && (level >= 120.0 <==> equity >= needed * 1.1999995)
            && (level < 100.0 <==> equity < needed * 0.9999995)
  {
    hide ToFixed4;
    WorkerThresholds(equity / needed * 100.0);
    PercentAt(equity, needed, equity / needed);
  }

  lemma PercentAt(equity: real, needed: real, x: real)
    requires needed > 0.0 && x == equity / needed
    ensures x * 100.0 >= 119.99995 <==> equity >= needed * 1.1999995
    ensures x * 100.0 < 99.99995 <==> equity < needed * 0.9999995
  {
    ProductIs(equity, needed, x);
    RatioBelow(equity, needed, x, 1.1999995);
    RatioBelow(equity, needed, x, 0.9999995);
  }

  lemma RatioBelow(equity: real, needed: real, x: real, y: real)
    requires needed > 0.0 && x * needed == equity
    ensures x < y <==> equity < needed * y
  {
    ScaledOrder(x, y, needed);
  }

  lemma ActiveIsUnended(db: Db, pid: Id)
    ensures HasActiveLiquidation(db, pid) <==> AnyUnended(db, pid)
    ensures CallsOff(db, CancelLiquidations(db, pid), pid)
  {
    forall id | id in db.orders ensures IsActiveLiquidation(db, pid, id) <==> Unended(db, pid, id) {}
  }

  lemma NoneToRank(db: Db, pid: Id, prices: Prices)
    ensures Candidates(db, pid, prices) != {} <==> HoldsSome(db, pid)
  {
    hide CandidateOf;
    if HoldsSome(db, pid) {
      var h :| h in db.positions && h.portfolioId == pid && db.positions[h].quantity != 0.0;
      assert CandidateOf(h.symbol, db.positions[h].quantity, prices) in Candidates(db, pid, prices);
    }
    if Candidates(db, pid, prices) != {} {
      var c :| c in Candidates(db, pid, prices);
      CandidateHolding(db, pid, prices, c);
    }
  }

  lemma CreatedOpens(db: Db, pid: Id, top: Candidate, newId: Id)
    requires pid in db.portfolios && Holding(pid, top.symbol) in db.positions && top.quantity != 0.0
    requires db.positions[Holding(pid, top.symbol)].quantity == top.quantity
    ensures OpensFor(db, Created(db, LiquidationOrder(db, pid, newId, top)), Holding(pid, top.symbol), newId)
  {
    hide LiquidationIds;
  }

  /** An evaluation in session of a margin portfolio with something to maintain goes by its equity. From 1.1999995
      times the maintenance margin on, unended liquidations are called off. From 0.9999995 times on nothing happens.
      Below that one order is opened, exactly when no other is unended, something is held, the position closed first
      has a positive price and the next key is free; it takes that position to zero. */
  lemma EvaluationOutcome(db: Db, pid: Id, prices: Prices, ranking: Prices, open: bool, newId: Id) returns (h: Holding)
    requires newId !in db.orders
    ensures HoldsSome(db, pid) ==> ClosedFirst(db.positions, pid, ranking, h)
    ensures var (db', failure) := Evaluate(db, pid, prices, ranking, open, newId);
            if open && pid in db.portfolios && db.portfolios[pid].isMarginEnabled && Maintenance(db, pid, prices) > 0.0
            then
              var equity, needed := Equity(db, pid, prices), Maintenance(db, pid, prices);
              var ready := equity < needed * 0.9999995 && !AnyUnended(db, pid) && HoldsSome(db, pid)
                           && Notional(h, db.positions[h], ranking) > 0.0;
              var taken := (db.portfolios[pid].userId, NextKey(db, h)) in db.byKey;
              && (if equity >= needed * 1.1999995 then CallsOff(db, db', pid)
                  else if ready && !taken then OpensFor(db, db', h, newId)
                  else db' == db)
              && failure == (if equity < needed * 1.1999995 && ready && taken then Some(DuplicateKey) else None)
            else db' == db && failure.None?
  {
    hide Equity, Maintenance, Candidates, ToFixed4, LiquidationIds, LiquidationOrder, CancelLiquidations, ClosedFirst;
    hide HasActiveLiquidation, AnyUnended, HoldsSome, OpensFor, CallsOff, Notional, Frees, RankedFirst;
    h := Holding(pid, Symbol(""));
    ActiveIsUnended(db, pid);
    NoneToRank(db, pid, ranking);
    if HoldsSome(db, pid) {
      var top := TopCandidate(db, pid, ranking);
      h := Holding(pid, top.symbol);
      TopIsClosedFirst(db, pid, ranking, top);
      ClosedFirstHolds(db, pid, ranking, h);
      if pid in db.portfolios {
        CreatedOpens(db, pid, top, newId);
        KeyOfOrder(db, pid, newId, top);
      }
    }
    if pid in db.portfolios && Maintenance(db, pid, prices) > 0.0 {
      LevelInNumbers(Equity(db, pid, prices), Maintenance(db, pid, prices));
    }
  }

  lemma ClosedFirstHolds(db: Db, pid: Id, prices: Prices, h: Holding)
    requires ClosedFirst(db.positions, pid, prices, h)
    ensures h in db.positions && h.portfolioId == pid && db.positions[h].quantity != 0.0
  {}

  lemma KeyOfOrder(db: Db, pid: Id, newId: Id, top: Candidate)
    requires pid in db.portfolios
    ensures var o := LiquidationOrder(db, pid, newId, top);
            (o.userId, o.key) == (db.portfolios[pid].userId, NextKey(db, Holding(pid, top.symbol)))
  {
    hide LiquidationIds;
  }

  // ---- the order it opens ----------------------------------------------------------------------

  /** The fill that does the whole order at the price its position is marked at. */
  function WholeAtMark(db: Db, o: Order, prices: Prices): FillOrderDto {
    FillOrderDto(o.id, ClosingPrice(HoldingOf(o), Held(db, HoldingOf(o)), prices), o.requested, o.requested)
  }

  /** The margin level a fill leaves behind. */
  ghost function LevelAfter(db: Db, o: Order, dto: FillOrderDto, prices: Prices): Option<real>
    requires o.portfolioId in db.portfolios
  {
    var db' := Filled(db, o, dto);
    MarginLevel(Equity(db', o.portfolioId, prices), Maintenance(db', o.portfolioId, prices))
  }

  lemma OpenedCloses(db: Db, db': Db, h: Holding, newId: Id, prices: Prices)
    requires h in db.positions && h.portfolioId in db.portfolios && OpensFor(db, db', h, newId)
    requires PositionOk(db.positions[h])
    ensures var o := db'.orders[newId];
            && HoldingOf(o) == h && ClosesWhole(db', o, WholeAtMark(db', o, prices), prices)
            && h in Filled(db', o, WholeAtMark(db', o, prices)).positions
            && Filled(db', o, WholeAtMark(db', o, prices)).positions[h].quantity == 0.0
  {
    hide NextKey, Mark, ClosingPrice, Traded, Listed;
    var o := db'.orders[newId];
    assert db'.positions == db.positions && db'.portfolios == db.portfolios;
    MarkedAt(h, db.positions[h], prices);
    ClosedIsFlat(db.positions[h], o, WholeAtMark(db', o, prices));
  }

  lemma MarkedAt(h: Holding, pos: Position, prices: Prices)
    requires pos.quantity != 0.0
    ensures Mark(h, pos, prices) == ClosingPrice(h, pos, prices)
  {
    MarkIsHalfASpreadWorse(h, pos, prices);
    hide Mark;
  }

  lemma NotionalNeedsPrice(h: Holding, pos: Position, prices: Prices)
    requires Notional(h, pos, prices) > 0.0
    ensures h.symbol in prices
  {}

  lemma BestOfOpened(db: Db, db': Db, h: Holding, newId: Id, ranking: Prices, dto: FillOrderDto, o': Order,
                     dto': FillOrderDto)
    requires h in db.positions && h.portfolioId in db.portfolios && OpensFor(db, db', h, newId)
    requires ClosedFirst(db.positions, h.portfolioId, ranking, h) && Notional(h, db.positions[h], ranking) > 0.0
    requires ClosesWhole(db', db'.orders[newId], dto, ranking) && ClosesWhole(db', o', dto', ranking)
    requires o'.portfolioId == h.portfolioId && o'.symbol in ranking && Equity(db', h.portfolioId, ranking) >= 0.0
    ensures AtLeastAsGood(LevelAfter(db', db'.orders[newId], dto, ranking), LevelAfter(db', o', dto', ranking))
  {
    hide ClosedFirst, Equity, Maintenance, AtLeastAsGood, MarginLevel, Notional, PortfolioFilled, PositionFilled;
    hide FillEntries, Traded, CandidateOf, NextKey, RankedFirst;
    var pid, o, other := h.portfolioId, db'.orders[newId], HoldingOf(o');
    assert db'.positions == db.positions && HoldingOf(o) == h;
    NotionalNeedsPrice(h, db.positions[h], ranking);
    FirstRanked(db', pid, ranking, h);
    var top := CandidateOf(h.symbol, db'.positions[h].quantity, ranking);
    var next := CandidateOf(other.symbol, db'.positions[other].quantity, ranking);
    SymbolKept(h.symbol, db'.positions[h].quantity, ranking);
    SymbolKept(other.symbol, db'.positions[other].quantity, ranking);
    assert next in Candidates(db', pid, ranking);
    GreedyIsBest(db', ranking, top, next, o, dto, o', dto', pid);
  }

  lemma OpenedRow(db: Db, db': Db, h: Holding, newId: Id)
    requires h in db.positions && h.portfolioId in db.portfolios && OpensFor(db, db', h, newId)
    ensures newId in db'.orders && HoldingOf(db'.orders[newId]) == h
    ensures db'.positions == db.positions && db'.portfolios == db.portfolios
    ensures var o := db'.orders[newId];
            db.positions[h].quantity + (if o.side.BUY? then o.requested else -o.requested) == 0.0
  {
    hide NextKey;
  }

  lemma HoldingInShape(db: Db, h: Holding)
    requires Shape(db) && h in db.positions
    ensures PositionOk(db.positions[h])
  {}

  /** Whenever an evaluation opens an order, in any run, the order's quantity on its side takes the position it names
      to zero, and that position is the one closed first; filled whole at the price the position is marked at, it
      closes it. And there is no better single close, at the ranking's prices: with equity that is not negative every
      other close of a whole position leaves a margin level no higher. */
  lemma OpenedOrderIsBest(db: Db, actions: seq<Action>, pid: Id, prices: Prices, ranking: Prices, open: bool,
                          newId: Id, o': Order, dto': FillOrderDto)
    requires Initial(db) && newId !in Run(db, actions).orders
    requires newId in Evaluate(Run(db, actions), pid, prices, ranking, open, newId).0.orders
    ensures var now, db' := Run(db, actions), Evaluate(Run(db, actions), pid, prices, ranking, open, newId).0;
            var o := db'.orders[newId];
            var h, dto := Holding(pid, o.symbol), WholeAtMark(db', o, ranking);
            && pid in db'.portfolios && ClosedFirst(now.positions, pid, ranking, h) && h in db'.positions
            && db'.positions[h].quantity + (if o.side.BUY? then o.requested else -o.requested) == 0.0
            && ClosesWhole(db', o, dto, ranking)
            && h in Filled(db', o, dto).positions && Filled(db', o, dto).positions[h].quantity == 0.0
            && (ClosesWhole(db', o', dto', ranking) && o'.portfolioId == pid && o'.symbol in ranking
                  && Equity(db', pid, ranking) >= 0.0 ==>
                AtLeastAsGood(LevelAfter(db', o, dto, ranking), LevelAfter(db', o', dto', ranking)))
  {
    hide Run, Laws, Evaluate, OpensFor, ClosesWhole, ClosedFirst, Filled, Equity, Maintenance, AtLeastAsGood;
    hide LevelAfter, WholeAtMark, Notional;
    ReservationsConserved(db, actions);
    var now := Run(db, actions);
    var db' := Evaluate(now, pid, prices, ranking, open, newId).0;
    var h := EvaluationOutcome(now, pid, prices, ranking, open, newId);
    ClosedFirstHolds(now, pid, ranking, h);
    HoldingInShape(now, h);
    OpenedCloses(now, db', h, newId, ranking);
    OpenedRow(now, db', h, newId);
    if ClosesWhole(db', o', dto', ranking) && o'.portfolioId == pid && o'.symbol in ranking
       && Equity(db', pid, ranking) >= 0.0 {
      BestOfOpened(now, db', h, newId, ranking, WholeAtMark(db', db'.orders[newId], ranking), o', dto');
    }
  }
}
