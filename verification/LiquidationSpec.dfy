/** One evaluation of a margin portfolio by the liquidation worker: cancel when the account is safe
    again, and otherwise open at most one liquidation order, for the position that frees most margin. */
module LiquidationSpec {
  import opened Prelude
  import opened Liquidity
  import opened Domain
  import opened Valuation

  /** The worker looks for an order in any status that is not final. */
  predicate ActiveForLiquidation(s: OrderStatus) {
    s.RECEIVED? || s.VALIDATED? || Active(s)
  }

  predicate IsActiveLiquidation(db: Db, pid: Id, id: Id) {
    && id in db.orders && db.orders[id].portfolioId == pid && db.orders[id].isLiquidation
    && ActiveForLiquidation(db.orders[id].status)
  }

  predicate HasActiveLiquidation(db: Db, pid: Id) {
    exists id | id in db.orders :: IsActiveLiquidation(db, pid, id)
  }

  function CancelLiquidations(db: Db, pid: Id): Db {
    db.(orders := map id | id in db.orders ::
          if IsActiveLiquidation(db, pid, id) then db.orders[id].(status := CANCELLED) else db.orders[id])
  }

  datatype Candidate = Candidate(symbol: Symbol, quantity: real, notional: real, imContribution: real)

  /** A missing price counts as zero here, unlike in the valuation. */
  function CandidateOf(symbol: Symbol, quantity: real, prices: Prices): Candidate {
    var ref := if symbol in prices then prices[symbol] else 0.0;
    var side := if quantity > 0.0 then SELL else BUY;
    Candidate(symbol, quantity, Abs(quantity) * ref, Abs(quantity) * ExecPrice(side, symbol, ref, 0.0) * 0.50)
  }

  ghost function Candidates(db: Db, pid: Id, prices: Prices): set<Candidate> {
    set h | h in db.positions && h.portfolioId == pid && db.positions[h].quantity != 0.0 ::
      CandidateOf(h.symbol, db.positions[h].quantity, prices)
  }

  /** String order of the ranking's last tie-break: code unit by code unit. */
  predicate NameBefore(a: string, b: string)
    decreases |a|
  {
    if b == "" then false
    else if a == "" then true
    else if a[0] != b[0] then a[0] < b[0]
    else NameBefore(a[1..], b[1..])
  }

  /** The comparator: more initial margin first, then more notional, then the symbol. */
  predicate RanksBefore(a: Candidate, b: Candidate) {
    if a.imContribution != b.imContribution then a.imContribution > b.imContribution
    else if a.notional != b.notional then a.notional > b.notional
    else NameBefore(a.symbol.name, b.symbol.name)
  }

  ghost predicate RankedFirst(c: Candidate, all: set<Candidate>) {
    c in all && forall other | other in all :: !RanksBefore(other, c)
  }

  lemma {:induction false} NameOrderTotal(a: string, b: string)
    ensures a == b || NameBefore(a, b) || NameBefore(b, a)
    ensures !(NameBefore(a, b) && NameBefore(b, a))
    decreases |a|
  {
    if a != "" && b != "" && a[0] == b[0] {
      NameOrderTotal(a[1..], b[1..]);
      if a[1..] == b[1..] { assert a == [a[0]] + a[1..] && b == [b[0]] + b[1..]; }
    }
  }

  lemma {:induction false} NameOrderTransitive(a: string, b: string, c: string)
    requires NameBefore(a, b) && NameBefore(b, c)
    ensures NameBefore(a, c)
    decreases |a|
  {
    if a != "" && a[0] == b[0] == c[0] { NameOrderTransitive(a[1..], b[1..], c[1..]); }
  }

  lemma RanksTransitive(a: Candidate, b: Candidate, c: Candidate)
    requires RanksBefore(a, b) && RanksBefore(b, c)
    ensures RanksBefore(a, c)
  {
    if a.imContribution == b.imContribution == c.imContribution && a.notional == b.notional == c.notional {
      NameOrderTransitive(a.symbol.name, b.symbol.name, c.symbol.name);
    }
  }

  /** A non-empty set of candidates has a first one. */
  lemma {:induction false} SomeoneRanksFirst(all: set<Candidate>) returns (top: Candidate)
    requires all != {}
    ensures RankedFirst(top, all)
    decreases |all|
  {
    var c :| c in all;
    var rest := all - {c};
    if rest == {} {
      top := c;
      assert all == {c};
      NameOrderTotal(c.symbol.name, c.symbol.name);
    } else {
      var best := SomeoneRanksFirst(rest);
      if RanksBefore(c, best) {
        top := c;
        forall other | other in all ensures !RanksBefore(other, c) {
          NameOrderTotal(c.symbol.name, other.symbol.name);
          if other != c && RanksBefore(other, c) { RanksTransitive(other, c, best); }
        }
      } else {
        top := best;
      }
    }
  }

  ghost function TopCandidate(db: Db, pid: Id, prices: Prices): (top: Candidate)
    requires Candidates(db, pid, prices) != {}
    ensures RankedFirst(top, Candidates(db, pid, prices))
  {
    assert exists c :: RankedFirst(c, Candidates(db, pid, prices)) by {
      var c := SomeoneRanksFirst(Candidates(db, pid, prices));
    }
    var top :| RankedFirst(top, Candidates(db, pid, prices));
    top
  }

  /** A candidate stands for the portfolio's one position in its symbol. */
  lemma CandidateHolding(db: Db, pid: Id, prices: Prices, c: Candidate)
    requires c in Candidates(db, pid, prices)
    ensures Holding(pid, c.symbol) in db.positions && db.positions[Holding(pid, c.symbol)].quantity != 0.0
    ensures c == CandidateOf(c.symbol, db.positions[Holding(pid, c.symbol)].quantity, prices)
  {
    var h :| h in db.positions && h.portfolioId == pid && db.positions[h].quantity != 0.0
             && c == CandidateOf(h.symbol, db.positions[h].quantity, prices);
    SymbolKept(h.symbol, db.positions[h].quantity, prices);
    assert h == Holding(pid, c.symbol);
  }

  lemma SymbolKept(symbol: Symbol, quantity: real, prices: Prices)
    ensures CandidateOf(symbol, quantity, prices).symbol == symbol
  {}

  /** So the ranking has one winner. */
  lemma TopIsUnique(db: Db, pid: Id, prices: Prices, a: Candidate, b: Candidate)
    requires RankedFirst(a, Candidates(db, pid, prices)) && RankedFirst(b, Candidates(db, pid, prices))
    ensures a == b
  {
    NameOrderTotal(a.symbol.name, b.symbol.name);
    assert a.symbol.name == b.symbol.name;
    CandidateHolding(db, pid, prices, a);
    CandidateHolding(db, pid, prices, b);
  }

  function LiquidationIds(db: Db, pid: Id, symbol: Symbol): set<Id> {
    set id | id in db.orders && db.orders[id].isLiquidation && db.orders[id].portfolioId == pid
      && db.orders[id].symbol == symbol
  }

  function LiquidationOrder(db: Db, pid: Id, id: Id, top: Candidate): Order
    requires pid in db.portfolios
  {
    Order(id, db.portfolios[pid].userId, pid, top.symbol, if top.quantity > 0.0 then SELL else BUY, MARKET,
          Abs(top.quantity), 0.0, None, None, None, None,
          RECEIVED, Round(pid, top.symbol, |LiquidationIds(db, pid, top.symbol)|), true, false)
  }

  function Created(db: Db, o: Order): Db {
    db.(orders := db.orders[o.id := o], byKey := db.byKey[(o.userId, o.key) := o.id])
  }

  lemma FloorAtLeast(y: real, m: int)
    ensures y.Floor >= m <==> y >= m as real
  {}

  /** The worker goes by the shown margin level, the report by the exact one: an account is safe to the worker from
      119.99995 on, and between 99.99995 and 100 it is reported as a forced liquidation and left alone. */
  lemma WorkerThresholds(level: real)
    ensures ToFixed4(level) >= 120.0 <==> level >= 119.99995
    ensures ToFixed4(level) < 100.0 <==> level < 99.99995
    ensures StatusOf(Some(level)).FORCED_LIQUIDATION? && ToFixed4(level) >= 100.0 <==> 99.99995 <= level < 100.0
  {
    if level >= 0.0 {
      FloorAtLeast(level * 10000.0 + 0.5, 1200000);
      FloorAtLeast(level * 10000.0 + 0.5, 1000000);
    } else {
      FloorAtLeast(0.5 - level * 10000.0, 0);
    }
  }

  /** The valuation reads its prices first; the ranking reads them again later. */
  ghost function Evaluate(db: Db, pid: Id, prices: Prices, ranking: Prices, open: bool, newId: Id)
    : (Db, Option<Failure>)
  {
    if !open || pid !in db.portfolios || !db.portfolios[pid].isMarginEnabled then (db, None)
    else match MarginLevel(Equity(db, pid, prices), Maintenance(db, pid, prices))
      case None => (db, None)
      case Some(exact) =>
        var level := ToFixed4(exact);
        if level >= 120.0 then (CancelLiquidations(db, pid), None)
        else if level >= 100.0 || HasActiveLiquidation(db, pid) || Candidates(db, pid, ranking) == {} then (db, None)
        else
          var top := TopCandidate(db, pid, ranking);
          var o := LiquidationOrder(db, pid, newId, top);
          if top.notional <= 0.0 then (db, None)
          else if (o.userId, o.key) in db.byKey then (db, Some(DuplicateKey))
          else (Created(db, o), None)
  }

  /** An evaluation changes nothing, cancels the portfolio's liquidations, or opens one. */
  ghost predicate EvaluationStep(db: Db, db': Db, pid: Id, prices: Prices, newId: Id) {
    || db' == db
    || db' == CancelLiquidations(db, pid)
    || (&& pid in db.portfolios && Candidates(db, pid, prices) != {} && !HasActiveLiquidation(db, pid)
        && var o := LiquidationOrder(db, pid, newId, TopCandidate(db, pid, prices));
           (o.userId, o.key) !in db.byKey && db' == Created(db, o))
  }

  lemma EvaluateSteps(db: Db, pid: Id, prices: Prices, ranking: Prices, open: bool, newId: Id)
    ensures EvaluationStep(db, Evaluate(db, pid, prices, ranking, open, newId).0, pid, ranking, newId)
  {}
}
