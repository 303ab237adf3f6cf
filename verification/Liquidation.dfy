/** The liquidation worker over whole runs: one active order per portfolio, gap-free round keys, and why
    closing the position ranked first is the best single move. */
module Liquidation {
  import opened Liquidity
  import opened Domain
  import opened OrderSpec
  import opened Valuation
  import opened LiquidationSpec
  import opened Actions
  import opened Reservations
  import opened Steps

  // ---- one active order, gap-free rounds -----------------------------------------------------

  ghost predicate OneActive(db: Db, pid: Id) {
    forall i, j :: IsActiveLiquidation(db, pid, i) && IsActiveLiquidation(db, pid, j) ==> i == j
  }

  predicate HasRound(db: Db, pid: Id, symbol: Symbol, round: nat, id: Id) {
    id in LiquidationIds(db, pid, symbol) && db.orders[id].key == Round(pid, symbol, round)
  }

  ghost predicate RoundTaken(db: Db, pid: Id, symbol: Symbol, round: nat) {
    exists id :: HasRound(db, pid, symbol, round, id)
  }

  ghost predicate RoundKnown(db: Db, pid: Id, symbol: Symbol, id: Id) {
    exists round: nat :: round < |LiquidationIds(db, pid, symbol)| && HasRound(db, pid, symbol, round, id)
  }

  /** The liquidation orders of a portfolio in a symbol carry the rounds 0 .. n-1, each exactly once. */
  ghost predicate RoundsExact(db: Db, pid: Id, symbol: Symbol) {
    && (forall id | id in LiquidationIds(db, pid, symbol) :: RoundKnown(db, pid, symbol, id))
    && (forall round: nat | round < |LiquidationIds(db, pid, symbol)| :: RoundTaken(db, pid, symbol, round))
    && (forall round: nat, i, j :: HasRound(db, pid, symbol, round, i) && HasRound(db, pid, symbol, round, j) ==>
        i == j)
  }

  ghost predicate LiquidationsOk(db: Db) {
    && (forall pid :: OneActive(db, pid))
    && (forall pid, symbol :: RoundsExact(db, pid, symbol))
  }

  ghost predicate NoNewLiquidation(orders: map<Id, Order>, orders': map<Id, Order>) {
    forall id | id in orders' && id !in orders :: !orders'[id].isLiquidation
  }

  lemma OnlyEvaluationCreates(db: Db, a: Action)
    requires Shape(db) && !a.EvaluatePortfolio?
    ensures NoNewLiquidation(db.orders, Act(db, a).orders)
  {
    hide Shape;
    if a.Fill? {
      FillAllOrNothing(db, a.fill);
      if a.fill.orderId in db.orders { OrderShape(db, a.fill.orderId); }
    } else if a.MarkOrderPending? {
      MarkPendingSteps(db, a.id, a.openBefore, a.openInside);
    }
    if a.MarkOrderPending? || a.CancelOrder? || a.ExpireOrder? {
      if a.id in db.orders { OrderShape(db, a.id); }
    }
  }

  /** Steps that create no liquidation order keep both facts. */
  lemma MoveKeepsIds(db: Db, db': Db, pid: Id, symbol: Symbol)
    requires OrdersMove(db.orders, db'.orders) && NoNewLiquidation(db.orders, db'.orders)
    ensures LiquidationIds(db', pid, symbol) == LiquidationIds(db, pid, symbol)
    ensures forall round: nat, id :: HasRound(db', pid, symbol, round, id) <==> HasRound(db, pid, symbol, round, id)
  {
    forall id | id in db'.orders
      ensures id in LiquidationIds(db', pid, symbol) <==> id in LiquidationIds(db, pid, symbol)
      ensures forall round: nat :: HasRound(db', pid, symbol, round, id) <==> HasRound(db, pid, symbol, round, id)
    {
      if id in db.orders { assert OrderMoves(db.orders[id], db'.orders[id]); }
    }
  }

  lemma MoveKeepsRounds(db: Db, db': Db, pid: Id, symbol: Symbol)
    requires OrdersMove(db.orders, db'.orders) && NoNewLiquidation(db.orders, db'.orders)
    requires RoundsExact(db, pid, symbol)
    ensures RoundsExact(db', pid, symbol)
  {
    hide HasRound;
    MoveKeepsIds(db, db', pid, symbol);
    forall id | id in LiquidationIds(db', pid, symbol) ensures RoundKnown(db', pid, symbol, id) {
      assert RoundKnown(db, pid, symbol, id);
      var round: nat :| round < |LiquidationIds(db, pid, symbol)| && HasRound(db, pid, symbol, round, id);
      assert HasRound(db', pid, symbol, round, id);
    }
    forall round: nat | round < |LiquidationIds(db', pid, symbol)| ensures RoundTaken(db', pid, symbol, round) {
      assert RoundTaken(db, pid, symbol, round);
      var id :| HasRound(db, pid, symbol, round, id);
      assert HasRound(db', pid, symbol, round, id);
    }
  }

  lemma MoveKeepsOneActive(db: Db, db': Db, pid: Id)
    requires Shape(db) && OrdersMove(db.orders, db'.orders) && NoNewLiquidation(db.orders, db'.orders)
    requires OneActive(db, pid)
    ensures OneActive(db', pid)
  {
    forall id | IsActiveLiquidation(db', pid, id) ensures IsActiveLiquidation(db, pid, id) {
      assert OrderMoves(db.orders[id], db'.orders[id]);
      OrderShape(db, id);
    }
  }

  lemma CreatedIds(db: Db, o: Order, pid: Id, symbol: Symbol)
    requires o.id !in db.orders && o.isLiquidation
    ensures LiquidationIds(Created(db, o), pid, symbol)
         == LiquidationIds(db, pid, symbol) + (if o.portfolioId == pid && o.symbol == symbol then {o.id} else {})
  {}

  lemma CreatedRound(db: Db, o: Order, pid: Id, symbol: Symbol, round: nat, id: Id)
    requires o.id !in db.orders && o.isLiquidation
    ensures HasRound(Created(db, o), pid, symbol, round, id)
       <==> HasRound(db, pid, symbol, round, id)
            || (id == o.id && o.portfolioId == pid && o.symbol == symbol && o.key == Round(pid, symbol, round))
  {}

  lemma CreatedKeepsRounds(db: Db, o: Order, pid: Id, symbol: Symbol)
    requires RoundsExact(db, pid, symbol) && o.id !in db.orders && o.isLiquidation
    requires o.key == Round(o.portfolioId, o.symbol, |LiquidationIds(db, o.portfolioId, o.symbol)|)
    ensures RoundsExact(Created(db, o), pid, symbol)
  {
    hide HasRound, LiquidationIds, Created;
    var db' := Created(db, o);
    var n, n' := |LiquidationIds(db, pid, symbol)|, |LiquidationIds(db', pid, symbol)|;
    CreatedIds(db, o, pid, symbol);
    NotYetIn(db, o, pid, symbol);
    forall id | id in LiquidationIds(db', pid, symbol) ensures RoundKnown(db', pid, symbol, id) {
      if id in LiquidationIds(db, pid, symbol) {
        assert RoundKnown(db, pid, symbol, id);
        var round: nat :| round < n && HasRound(db, pid, symbol, round, id);
        CreatedRound(db, o, pid, symbol, round, id);
        assert HasRound(db', pid, symbol, round, id);
      } else {
        CreatedRound(db, o, pid, symbol, n, id);
        assert HasRound(db', pid, symbol, n, id);
      }
    }
    forall round: nat | round < n' ensures RoundTaken(db', pid, symbol, round) {
      if round < n {
        assert RoundTaken(db, pid, symbol, round);
        var id :| HasRound(db, pid, symbol, round, id);
        CreatedRound(db, o, pid, symbol, round, id);
        assert HasRound(db', pid, symbol, round, id);
      } else {
        CreatedRound(db, o, pid, symbol, round, o.id);
        assert HasRound(db', pid, symbol, round, o.id);
      }
    }
    forall round: nat, i, j | HasRound(db', pid, symbol, round, i) && HasRound(db', pid, symbol, round, j)
      ensures i == j
    {
      CreatedRound(db, o, pid, symbol, round, i);
      CreatedRound(db, o, pid, symbol, round, j);
      RoundBelow(db, pid, symbol, round, i);
      RoundBelow(db, pid, symbol, round, j);
    }
  }

  lemma NotYetIn(db: Db, o: Order, pid: Id, symbol: Symbol)
    requires o.id !in db.orders
    ensures o.id !in LiquidationIds(db, pid, symbol)
  {}

  lemma RoundBelow(db: Db, pid: Id, symbol: Symbol, round: nat, id: Id)
    requires RoundsExact(db, pid, symbol)
    ensures HasRound(db, pid, symbol, round, id) ==> round < |LiquidationIds(db, pid, symbol)|
  {
    if HasRound(db, pid, symbol, round, id) {
      assert RoundKnown(db, pid, symbol, id);
      var own: nat :| own < |LiquidationIds(db, pid, symbol)| && HasRound(db, pid, symbol, own, id);
    }
  }

  lemma CreatedKeepsOneActive(db: Db, o: Order, pid: Id)
    requires OneActive(db, pid) && o.id !in db.orders && (o.portfolioId == pid ==> !HasActiveLiquidation(db, pid))
    ensures OneActive(Created(db, o), pid)
  {
    forall id | IsActiveLiquidation(Created(db, o), pid, id) && id != o.id ensures IsActiveLiquidation(db, pid, id) {}
  }

  lemma EvaluationKeepsLiquidations(db: Db, db': Db, pid: Id, prices: Prices, newId: Id)
    requires Shape(db) && LiquidationsOk(db) && newId !in db.orders && EvaluationStep(db, db', pid, prices, newId)
    ensures LiquidationsOk(db')
  {
    hide OneActive, RoundsExact, HasActiveLiquidation, Candidates;
    if db' == CancelLiquidations(db, pid) {
      CancelledIsQuiet(db, pid);
      forall p ensures OneActive(db', p) { MoveKeepsOneActive(db, db', p); }
      forall p, symbol ensures RoundsExact(db', p, symbol) { MoveKeepsRounds(db, db', p, symbol); }
    } else if db' != db {
      var o := LiquidationOrder(db, pid, newId, TopCandidate(db, pid, prices));
      forall p ensures OneActive(db', p) { CreatedKeepsOneActive(db, o, p); }
      forall p, symbol ensures RoundsExact(db', p, symbol) { CreatedKeepsRounds(db, o, p, symbol); }
    }
  }

  lemma ActKeepsLiquidations(db: Db, a: Action)
    requires Shape(db) && LiquidationsOk(db)
    ensures LiquidationsOk(Act(db, a))
  {
    hide OneActive, RoundsExact, Shape;
    if a.EvaluatePortfolio? {
      EvaluateSteps(db, a.portfolioId, a.prices, a.ranking, a.open, a.newId);
      if FreshId(db, a) { EvaluationKeepsLiquidations(db, Act(db, a), a.portfolioId, a.ranking, a.newId); }
    } else {
      ActMoves(db, a);
      OnlyEvaluationCreates(db, a);
      forall p ensures OneActive(Act(db, a), p) { MoveKeepsOneActive(db, Act(db, a), p); }
      forall p, symbol ensures RoundsExact(Act(db, a), p, symbol) { MoveKeepsRounds(db, Act(db, a), p, symbol); }
    }
  }

  /** In every run a portfolio has at most one active liquidation order, and its liquidation orders in a
      symbol carry exactly the keys round_0 .. round_(n-1). */
  lemma {:induction false} LiquidationRounds(db: Db, actions: seq<Action>)
    requires Initial(db)
    ensures Shape(Run(db, actions)) && LiquidationsOk(Run(db, actions))
  {
    hide OneActive, RoundsExact, Shape, Laws, Act;
    ReservationsConserved(db, actions);
    if actions == [] {
      forall p ensures OneActive(db, p) { NoLiquidations(db, p, Symbol("")); }
      forall p, symbol ensures RoundsExact(db, p, symbol) { NoLiquidations(db, p, symbol); }
    } else {
      LiquidationRounds(db, actions[..|actions| - 1]);
      ActKeepsLiquidations(Run(db, actions[..|actions| - 1]), actions[|actions| - 1]);
    }
  }

  lemma NoLiquidations(db: Db, pid: Id, symbol: Symbol)
    requires db.orders == map[]
    ensures OneActive(db, pid) && RoundsExact(db, pid, symbol)
  {
    assert LiquidationIds(db, pid, symbol) == {};
  }

  /** A client order of this user carries this key. */
  predicate ClientUses(db: Db, u: Id, key: IdempotencyKey, id: Id) {
    id in db.orders && !db.orders[id].isLiquidation && db.orders[id].userId == u && db.orders[id].key == key
  }

  /** The key the worker builds never meets that of an earlier liquidation order, in any portfolio or symbol;
      it is taken exactly when a client of the same user already placed an order under it. */
  lemma GeneratedKeyTaken(db: Db, actions: seq<Action>, pid: Id, symbol: Symbol)
    requires Initial(db) && pid in Run(db, actions).portfolios
    ensures var now := Run(db, actions);
            var key := Round(pid, symbol, |LiquidationIds(now, pid, symbol)|);
            && (forall id | id in now.orders && now.orders[id].isLiquidation :: now.orders[id].key != key)
            && ((now.portfolios[pid].userId, key) in now.byKey <==>
                exists id :: ClientUses(now, now.portfolios[pid].userId, key, id))
  {
    hide Run;
    LiquidationRounds(db, actions);
    NextRoundUnused(Run(db, actions), pid, symbol);
  }

  lemma NextRoundUnused(now: Db, pid: Id, symbol: Symbol)
    requires Shape(now) && LiquidationsOk(now) && pid in now.portfolios
    ensures var key := Round(pid, symbol, |LiquidationIds(now, pid, symbol)|);
            && (forall id | id in now.orders && now.orders[id].isLiquidation :: now.orders[id].key != key)
            && ((now.portfolios[pid].userId, key) in now.byKey <==>
                exists id :: ClientUses(now, now.portfolios[pid].userId, key, id))
  {
    var n := |LiquidationIds(now, pid, symbol)|;
    var key, u := Round(pid, symbol, n), now.portfolios[pid].userId;
    forall id | id in now.orders && now.orders[id].isLiquidation ensures now.orders[id].key != key {
      LiquidationKey(now, id);
      if now.orders[id].key == key { RoundBelow(now, pid, symbol, n, id); }
    }
    if (u, key) in now.byKey {
      assert ClientUses(now, u, key, now.byKey[(u, key)]);
    }
  }

  /** A liquidation order's key names its own portfolio and symbol. */
  lemma LiquidationKey(now: Db, id: Id)
    requires LiquidationsOk(now) && id in now.orders && now.orders[id].isLiquidation
    ensures var o := now.orders[id]; o.key.Round? && o.key.portfolioId == o.portfolioId && o.key.symbol == o.symbol
  {
    var o := now.orders[id];
    assert RoundsExact(now, o.portfolioId, o.symbol);
    assert id in LiquidationIds(now, o.portfolioId, o.symbol);
    assert RoundKnown(now, o.portfolioId, o.symbol, id);
  }
}
