/** Delivering jobs: late, duplicated, reordered or contradictory, they fill every order slice by slice,
    exactly once, at prices its terms allow. */
module ExactlyOnce {
  import opened Prelude
  import opened Sums
  import opened Liquidity
  import opened Slices
  import opened Domain
  import opened Trade
  import opened OrderSpec
  import opened Reservations
  import opened Steps
  import opened CashAccounts
  import opened EngineSpec
  import opened System
  import opened Execution

  // ---- one delivery --------------------------------------------------------------------------

  /** A slice starting at a point of the chain is new exactly when the point is the current one. */
  lemma SliceOnChain(fills: Fills, o: Order, m: nat, from: real, q: real)
    requires ChainAt(fills, o, m) && o.requested > 0.0 && Point(fills, o.id, from)
    requires 0.0 < q == Min(o.requested - from, Depth(o.symbol))
    ensures FillKey(o.id, from + q) in fills <==> from != o.filled
    ensures from == o.filled ==> from + q == Cum(o.requested, Depth(o.symbol), m + 1)
  {
    var d := Depth(o.symbol);
    var i: nat :| i <= m && from == Cum(o.requested, d, i) by {
      if from == 0.0 { assert Cum(o.requested, d, 0) == from; }
      else {
        assert ReachedBy(o.requested, d, m, from);
      }
    }
    assert from + q == Cum(o.requested, d, i + 1);
    CumMonotone(o.requested, d, i, m);
    if i < m {
      assert ReachedBy(o.requested, d, m, from + q);
    } else {
      NotReachedYet(o.requested, d, m);
    }
  }

  lemma NotReachedYet(requested: real, d: real, m: nat)
    requires requested > 0.0 && d > 0.0 && Cum(requested, d, m) < requested
    ensures !ReachedBy(requested, d, m, Cum(requested, d, m + 1))
  {
    forall k: nat | 1 <= k <= m ensures Cum(requested, d, k) < Cum(requested, d, m + 1) {
      CumMonotone(requested, d, k, m);
      CumMonotone(requested, d, m, m + 1);
    }
  }

  lemma CurrentSlice(fills: Fills, o: Order, from: real, q: real)
    requires OnChain(fills, o) && o.requested > 0.0 && Point(fills, o.id, from)
    requires 0.0 < q == Min(o.requested - from, Depth(o.symbol))
    ensures FillKey(o.id, from + q) in fills <==> from != o.filled
  {
    var m: nat :| ChainAt(fills, o, m);
    SliceOnChain(fills, o, m, from, q);
  }

  lemma JobIn(s: Sys, j: Job)
    requires Inv(s) && j in s.jobs
    ensures JobOk(s.db.orders, s.db.fills, s.ticks, j) && OnChain(s.db.fills, s.db.orders[j.orderId])
  {
    hide Shape, Laws, OnChain;
  }

  /** A job changes the database exactly when its order can still be filled, stands exactly where the job
      starts, and the price is not negative: a stale or duplicate job is inert. */
  lemma JobEffect(s: Sys, j: Job)
    requires Inv(s) && j in s.jobs
    ensures j.orderId in s.db.orders
    ensures var o := s.db.orders[j.orderId];
            ProcessFill(s.db, DtoOf(j)).0 != s.db <==>
              (Fillable(o.status) && o.filled == j.execution - j.quantity && Cost(DtoOf(j)) >= 0.0)
  {
    hide Laws, Cost, Honest, OnChain, MemoryOk, DbOk;
    JobIn(s, j);
    var o := s.db.orders[j.orderId];
    OrderShape(s.db, j.orderId);
    SizeOfJob(o, s.ticks, j);
    CurrentSlice(s.db.fills, o, j.execution - j.quantity, j.quantity);
    LockForJob(s.db, j.orderId);
    JobOutcome(s.db, o, j);
  }

  lemma SizeOfJob(o: Order, ticks: Ticks, j: Job)
    requires Honest(o, ticks, j.execution - j.quantity, j.quantity, j.price)
    ensures 0.0 < j.quantity == Min(o.requested - (j.execution - j.quantity), Depth(o.symbol))
  {}

  lemma LockForJob(db: Db, id: Id)
    requires Shape(db) && Laws(db) && id in db.orders
    ensures SharesHeld(db.orders[id]) <= Locked(db.positions, HoldingOf(db.orders[id]))
  {
    LockCoversOrder(db, id);
  }

  lemma JobOutcome(db: Db, o: Order, j: Job)
    requires j.orderId in db.orders && o == db.orders[j.orderId] && o.id == j.orderId
    requires OwnerOk(o, db.portfolios) && HoldingOk(o, db.positions)
    requires SharesHeld(o) <= Locked(db.positions, HoldingOf(o))
    requires 0.0 < j.quantity <= o.requested - (j.execution - j.quantity)
    requires FillKey(o.id, j.execution) in db.fills <==> j.execution - j.quantity != o.filled
    ensures ProcessFill(db, DtoOf(j)).0 != db <==>
        (Fillable(o.status) && o.filled == j.execution - j.quantity && Cost(DtoOf(j)) >= 0.0)
  {
    hide Cost, PositionFilled, PortfolioFilled, FillEntries, Realized;
    if Fillable(o.status) && o.filled == j.execution - j.quantity && Cost(DtoOf(j)) >= 0.0 {
      assert ProcessFill(db, DtoOf(j)).0 == Filled(db, o, DtoOf(j));
      assert Filled(db, o, DtoOf(j)).orders[o.id].filled != o.filled;
    }
  }

  // ---- the invariant through a delivery -------------------------------------------------------

  lemma FilledOnChain(fills: Fills, o: Order, o': Order, q: real, fill: Fill)
    requires OnChain(fills, o) && o.requested > 0.0 && SameTerms(o, o') && o'.filled == o.filled + q
    requires 0.0 < q == Min(o.requested - o.filled, Depth(o.symbol))
    ensures OnChain(fills[FillKey(o.id, o.filled + q) := fill], o')
  {
    var m: nat :| ChainAt(fills, o, m);
    CurrentPoint(fills, o);
    SliceOnChain(fills, o, m, o.filled, q);
    var fills' := fills[FillKey(o.id, o.filled + q) := fill];
    forall x: real ensures FillKey(o'.id, x) in fills' <==> ReachedBy(o'.requested, Depth(o'.symbol), m + 1, x) {
      NextReached(o.requested, Depth(o.symbol), m, x);
    }
    assert ChainAt(fills', o', m + 1);
  }

  lemma NextReached(requested: real, d: real, m: nat, x: real)
    ensures ReachedBy(requested, d, m + 1, x) <==> ReachedBy(requested, d, m, x) || x == Cum(requested, d, m + 1)
  {
    if ReachedBy(requested, d, m, x) {
      var k: nat :| 1 <= k <= m && x == Cum(requested, d, k);
      assert 1 <= k <= m + 1 && x == Cum(requested, d, k);
    }
    if x == Cum(requested, d, m + 1) { assert 1 <= m + 1 <= m + 1; }
  }

  lemma OtherChainStays(fills: Fills, o: Order, key: FillKey, fill: Fill)
    requires OnChain(fills, o) && key.orderId != o.id
    ensures OnChain(fills[key := fill], o)
  {
    var m: nat :| ChainAt(fills, o, m);
    assert ChainAt(fills[key := fill], o, m);
  }

  lemma FilledChains(orders: map<Id, Order>, fills: Fills, id: Id, o': Order, q: real, fill: Fill)
    requires Chains(orders, fills) && id in orders && orders[id].id == id && orders[id].requested > 0.0
    requires forall i | i in orders :: orders[i].id == i
    requires SameTerms(orders[id], o') && o'.filled == orders[id].filled + q
    requires 0.0 < q == Min(orders[id].requested - orders[id].filled, Depth(orders[id].symbol))
    ensures Chains(orders[id := o'], fills[FillKey(id, orders[id].filled + q) := fill])
  {
    hide OnChain;
    var key := FillKey(id, orders[id].filled + q);
    var orders' := orders[id := o'];
    forall i | i in orders' ensures OnChain(fills[key := fill], orders'[i]) {
      if i == id {
        FilledOnChain(fills, orders[id], o', q, fill);
      } else {
        OtherChainStays(fills, orders[i], key, fill);
      }
    }
  }

  /** The database after a job was applied. */
  lemma FilledDb(s: Sys, j: Job)
    requires Inv(s) && j in s.jobs && j.orderId in s.db.orders && ProcessFill(s.db, DtoOf(j)).0 != s.db
    ensures var db' := ProcessFill(s.db, DtoOf(j)).0;
            && DbOk(db'.orders, db'.fills, s.ticks)
            && Grows(s.db.orders, db'.orders, s.db.fills, db'.fills, s.ticks, s.ticks)
  {
    hide Shape, Laws, MemoryOk, Honest, Cost, PositionFilled, PortfolioFilled, FillEntries, Realized, OnChain, DbOk;
    var db' := ProcessFill(s.db, DtoOf(j)).0;
    var o := s.db.orders[j.orderId];
    JobEffect(s, j);
    JobIn(s, j);
    SizeOfJob(o, s.ticks, j);
    FillAllOrNothing(s.db, DtoOf(j));
    FilledMoves(s.db, db', DtoOf(j));
    OrderShape(s.db, j.orderId);
    IdsMatch(s.db);
    var fill := db'.fills[FillKey(o.id, j.execution)];
    FilledDbRows(s.db.orders, db'.orders, s.db.fills, s.ticks, j, fill);
  }

  lemma FilledDbRows(orders: map<Id, Order>, orders': map<Id, Order>, fills: Fills, ticks: Ticks, j: Job, fill: Fill)
    requires DbOk(orders, fills, ticks) && JobOk(orders, fills, ticks, j) && OrdersMove(orders, orders')
    requires orders[j.orderId].id == j.orderId && orders[j.orderId].requested > 0.0
    requires forall i | i in orders :: orders[i].id == i
    requires orders[j.orderId].filled == j.execution - j.quantity
    requires 0.0 < j.quantity
      == Min(orders[j.orderId].requested - orders[j.orderId].filled, Depth(orders[j.orderId].symbol))
    requires orders' == orders[j.orderId := AfterFill(orders[j.orderId], j.quantity)]
    requires FillKey(j.orderId, j.execution) !in fills && fill.quantity == j.quantity && fill.price == j.price
    ensures DbOk(orders', fills[FillKey(j.orderId, j.execution) := fill], ticks)
    ensures Grows(orders, orders', fills, fills[FillKey(j.orderId, j.execution) := fill], ticks, ticks)
  {
    hide Honest, OnChain, Chains, Crossed, Point;
    var key := FillKey(j.orderId, j.execution);
    var fills' := fills[key := fill];
    FilledChains(orders, fills, j.orderId, orders'[j.orderId], j.quantity, fill);
    JobGrows(orders, orders', fills, fills', ticks, ticks, j);
    forall k | k in fills' ensures FillOk(orders', fills', ticks, k) {
      if k != key { FillGrows(orders, orders', fills, fills', ticks, ticks, k); }
    }
    forall id | id in orders' && orders'[id].kind.STOP_LIMIT? && orders'[id].isActivated
      ensures Crossed(orders'[id], ticks)
    {
      assert OrderMoves(orders[id], orders'[id]);
      CrossedGrows(orders[id], orders'[id], ticks, ticks);
    }
  }

  lemma DeliverKeepsInv(s: Sys, j: Job)
    requires Inv(s)
    ensures Inv(Next(s, DeliverJob(j)))
  {
    hide Shape, Laws, DbOk, MemoryOk, Grows, ProcessFill;
    if j in s.jobs {
      var db' := ProcessFill(s.db, DtoOf(j)).0;
      ProcessFillKeepsShape(s.db, DtoOf(j));
      ProcessFillKeepsLaws(s.db, DtoOf(j));
      JobEffect(s, j);
      if db' != s.db {
        FilledDb(s, j);
        MemoryGrows(s.db.orders, db'.orders, s.db.fills, db'.fills, s.ticks, s.ticks, s);
        SameMemory(db'.orders, db'.fills, s.ticks, s, s.(db := db'));
      } else {
        assert s.(db := db') == s;
      }
    }
  }

  lemma NextKeepsInv(s: Sys, step: Step)
    requires Inv(s)
    ensures Inv(Next(s, step))
  {
    hide Inv;
    match step
    case Service(a) => if !a.Fill? && !a.ActivateStopLimit? { ServiceKeepsInv(s, a); }
    case Tick(symbol, price) => TickKeepsInv(s, symbol, price);
    case Observe(e, id, symbol, tick) => ObserveKeepsInv(s, e, id, symbol, tick);
    case RunActivation(a) => RunActivationKeepsInv(s, a);
    case FailActivation(e, id, symbol) => FailActivationKeepsInv(s, e, id, symbol);
    case Resume(e, r, attached) => ResumeKeepsInv(s, e, r, attached);
    case DeliverJob(j) => DeliverKeepsInv(s, j);
    case _ => MemoryStepKeepsInv(s, step);
  }

  lemma FreshInv(s: Sys)
    requires Fresh(s)
    ensures Inv(s)
  {
    InitialLaws(s.db);
  }

  /** The invariant of the pipeline, over every interleaving of services, readers, engines, ticks and jobs. */
  lemma {:induction false} PipelineInvariant(s: Sys, steps: seq<Step>)
    requires Fresh(s)
    ensures Inv(Reach(s, steps))
  {
    hide Inv, Next;
    if steps == [] {
      FreshInv(s);
    } else {
      PipelineInvariant(s, steps[..|steps| - 1]);
      NextKeepsInv(Reach(s, steps[..|steps| - 1]), steps[|steps| - 1]);
    }
  }

  // ---- consequences --------------------------------------------------------------------------

  /** Sum of the first n values of g. */
  function Partial(g: nat -> real, n: nat): real {
    if n == 0 then 0.0 else Partial(g, n - 1) + g(n - 1)
  }

  function QuantityOf(id: Id): (FillKey, Fill) -> real {
    (k: FillKey, f: Fill) => if k.orderId == id then f.quantity else 0.0
  }

  function CostOf(id: Id): (FillKey, Fill) -> real {
    (k: FillKey, f: Fill) => if k.orderId == id then f.quantity * f.price else 0.0
  }

  /** The order's executions in a table of fills are exactly c(1) .. c(m). */
  ghost predicate KeysAre(fills: Fills, id: Id, requested: real, d: real, m: nat) {
    forall x: real :: FillKey(id, x) in fills <==> ReachedBy(requested, d, m, x)
  }

  /** A term that counts only this order's fills sums over the chain. */
  lemma {:induction false} SumOverChain(fills: Fills, id: Id, requested: real, d: real, m: nat,
                                        term: (FillKey, Fill) -> real, g: nat -> real)
    requires requested > 0.0 && d > 0.0 && KeysAre(fills, id, requested, d, m)
    requires m > 0 ==> Cum(requested, d, m - 1) < requested
    requires forall k: FillKey | k in fills && k.orderId != id :: term(k, fills[k]) == 0.0
    requires forall i: nat | i < m && FillKey(id, Cum(requested, d, i + 1)) in fills ::
               term(FillKey(id, Cum(requested, d, i + 1)), fills[FillKey(id, Cum(requested, d, i + 1))]) == g(i)
    ensures Sum(fills, term) == Partial(g, m)
  {
    if m == 0 {
      forall k: FillKey | k in fills ensures term(k, fills[k]) == 0.0 {
        assert k == FillKey(k.orderId, k.execution);
      }
      SumOfZeros(fills, term);
    } else {
      var key := FillKey(id, Cum(requested, d, m));
      assert ReachedBy(requested, d, m, Cum(requested, d, m));
      SumTakeOut(fills, key, term);
      LastKeyOut(fills, id, requested, d, m);
      CumBelow(requested, d, m);
      hide KeysAre, Cum;
      SumOverChain(fills - {key}, id, requested, d, m - 1, term, g);
    }
  }

  lemma LastKeyOut(fills: Fills, id: Id, requested: real, d: real, m: nat)
    requires requested > 0.0 && d > 0.0 && m > 0 && KeysAre(fills, id, requested, d, m)
    requires Cum(requested, d, m - 1) < requested
    ensures KeysAre(fills - {FillKey(id, Cum(requested, d, m))}, id, requested, d, m - 1)
  {
    var key := FillKey(id, Cum(requested, d, m));
    NotReachedYet(requested, d, m - 1);
    hide Cum, ReachedBy;
    forall x: real ensures FillKey(id, x) in fills - {key} <==> ReachedBy(requested, d, m - 1, x) {
      NextReached(requested, d, m - 1, x);
    }
  }

  lemma CumBelow(requested: real, d: real, m: nat)
    requires requested > 0.0 && d > 0.0 && m > 0 && Cum(requested, d, m - 1) < requested
    ensures m > 1 ==> Cum(requested, d, m - 2) < requested
  {
    if m > 1 { CumMonotone(requested, d, m - 2, m - 1); }
  }

  lemma {:induction false} SlicesTelescope(requested: real, d: real, m: nat)
    ensures Partial(SliceQuantity(requested, d), m) == Cum(requested, d, m)
  {
    if m > 0 { SlicesTelescope(requested, d, m - 1); }
  }

  /** The n-th execution of an order took slice n. */
  lemma NthFill(orders: map<Id, Order>, fills: Fills, ticks: Ticks, o: Order, m: nat, n: nat)
    requires DbOk(orders, fills, ticks) && o.id in orders && orders[o.id] == o && o.requested > 0.0
    requires ChainAt(fills, o, m) && n < m
    ensures var key := FillKey(o.id, Cum(o.requested, Depth(o.symbol), n + 1));
            && key in fills
            && fills[key].quantity == SliceQuantity(o.requested, Depth(o.symbol))(n)
            && Honest(o, ticks, Cum(o.requested, Depth(o.symbol), n), fills[key].quantity, fills[key].price)
  {
    hide PricedAt, Crossed, WithinLimit, Chains;
    var d := Depth(o.symbol);
    var key := FillKey(o.id, Cum(o.requested, d, n + 1));
    assert ReachedBy(o.requested, d, m, Cum(o.requested, d, n + 1));
    assert FillOk(orders, fills, ticks, key);
    var from := key.execution - fills[key].quantity;
    StartOfSlice(fills, o, m, n, from, fills[key].quantity);
  }

  lemma StartOfSlice(fills: Fills, o: Order, m: nat, n: nat, from: real, q: real)
    requires ChainAt(fills, o, m) && n < m && o.requested > 0.0 && Point(fills, o.id, from)
    requires 0.0 < q == Min(o.requested - from, Depth(o.symbol)) && from + q == Cum(o.requested, Depth(o.symbol), n + 1)
    ensures from == Cum(o.requested, Depth(o.symbol), n)
  {
    var d := Depth(o.symbol);
    var i: nat :| i <= m && from == Cum(o.requested, d, i) by {
      if from == 0.0 { assert Cum(o.requested, d, 0) == from; } else { assert ReachedBy(o.requested, d, m, from); }
    }
    CumMonotone(o.requested, d, n, m - 1);
    assert Cum(o.requested, d, i + 1) == Cum(o.requested, d, n + 1);
    if i < n {
      CumMonotone(o.requested, d, i + 1, n);
    } else if n < i {
      CumMonotone(o.requested, d, n + 1, i);
    }
  }

  /** Exactly-once: in every reachable state an order's executions are exactly c(1) .. c(m) for some m, its
      filled quantity is c(m) and the sum of its fills, and no more than was requested is ever filled. */
  lemma FilledExactlyOnce(s: Sys, steps: seq<Step>, id: Id) returns (m: nat)
    requires Fresh(s) && id in Reach(s, steps).db.orders
    ensures var now := Reach(s, steps).db;
            && ChainAt(now.fills, now.orders[id], m)
            && Sum(now.fills, QuantityOf(id)) == now.orders[id].filled <= now.orders[id].requested
  {
    hide Reach, Laws, MemoryOk, Next;
    var now := Reach(s, steps);
    PipelineInvariant(s, steps);
    OrderShape(now.db, id);
    m := SumOfFills(now, id);
  }

  lemma SumOfFills(s: Sys, id: Id) returns (m: nat)
    requires Inv(s) && id in s.db.orders && RowOk(id, s.db.orders[id])
    ensures ChainAt(s.db.fills, s.db.orders[id], m) && Sum(s.db.fills, QuantityOf(id)) == s.db.orders[id].filled
  {
    hide Laws, MemoryOk, Shape, FillOk, Crossed;
    var o, d := s.db.orders[id], Depth(s.db.orders[id].symbol);
    assert OnChain(s.db.fills, o);
    m :| ChainAt(s.db.fills, o, m);
    forall i: nat | i < m && FillKey(id, Cum(o.requested, d, i + 1)) in s.db.fills
      ensures QuantityOf(id)(FillKey(id, Cum(o.requested, d, i + 1)),
                             s.db.fills[FillKey(id, Cum(o.requested, d, i + 1))])
           == SliceQuantity(o.requested, d)(i)
    {
      NthFill(s.db.orders, s.db.fills, s.ticks, o, m, i);
    }
    SumOverChain(s.db.fills, id, o.requested, d, m, QuantityOf(id), SliceQuantity(o.requested, d));
    SlicesTelescope(o.requested, d, m);
  }

  /** Only a job dispatched from the current filled quantity can change the state, however late, often or out
      of order jobs arrive, and every such job was priced from exactly that quantity. */
  lemma OnlyCurrentJobCounts(s: Sys, steps: seq<Step>, j: Job)
    requires Fresh(s) && j in Reach(s, steps).jobs
    ensures var now := Reach(s, steps);
            && j.orderId in now.db.orders
            && var o := now.db.orders[j.orderId];
            && (Next(now, DeliverJob(j)) != now <==>
                Fillable(o.status) && o.filled == j.execution - j.quantity && Cost(DtoOf(j)) >= 0.0)
            && (Next(now, DeliverJob(j)) != now ==> Honest(o, now.ticks, o.filled, j.quantity, j.price))
  {
    hide Reach, Inv, ProcessFill, Honest;
    var now := Reach(s, steps);
    PipelineInvariant(s, steps);
    JobEffect(now, j);
    JobIn(now, j);
  }

  /** Prices are honoured: the fill that took an order from c(n) to c(n+1) was priced at an observed tick, at
      slippage level n, never above the limit of a buy or below that of a sell, and not before a tick was at or
      above the stop of a buy, at or below that of a sell. */
  lemma PricesHonoured(s: Sys, steps: seq<Step>, id: Id, m: nat, n: nat) returns (tick: real)
    requires Fresh(s) && id in Reach(s, steps).db.orders
    requires ChainAt(Reach(s, steps).db.fills, Reach(s, steps).db.orders[id], m) && n < m
    ensures var now := Reach(s, steps);
            var o, p := now.db.orders[id], GetLiquidityProfile(now.db.orders[id].symbol);
            var key := FillKey(id, Cum(o.requested, Depth(o.symbol), n + 1));
            && key in now.db.fills
            && (o.symbol, tick) in now.ticks
            && now.db.fills[key].price == LevelPrice(Touch(o.side, tick, p), PerLevel(o.side, p), n)
            && (o.kind.LIMIT? || o.kind.STOP_LIMIT? ==>
                  && o.limitPrice.Some?
                  && (o.side.BUY? ==> now.db.fills[key].price <= o.limitPrice.value)
                  && (o.side.SELL? ==> now.db.fills[key].price >= o.limitPrice.value))
            && (o.kind.STOP? ==>
                  && o.stopPrice.Some?
                  && (o.side.BUY? ==> tick >= o.stopPrice.value)
                  && (o.side.SELL? ==> tick <= o.stopPrice.value))
            && (o.kind.STOP_LIMIT? ==>
                  && o.stopPrice.Some?
                  && exists t: real :: (o.symbol, t) in now.ticks
                       && (o.side.BUY? ==> t >= o.stopPrice.value) && (o.side.SELL? ==> t <= o.stopPrice.value))
  {
    hide Reach, Laws, MemoryOk, Crossed, WithinLimit, Crosses, ChainAt, DbOk, ExecPrice;
    var now := Reach(s, steps);
    PipelineInvariant(s, steps);
    OrderShape(now.db, id);
    var o := now.db.orders[id];
    NthFill(now.db.orders, now.db.fills, now.ticks, o, m, n);
    tick := TickOfFill(now, o, n);
    TermsInNumbers(o, now.ticks, tick, now.db.fills[FillKey(id, Cum(o.requested, Depth(o.symbol), n + 1))].price);
  }

  /** What the terms of an order come to. */
  lemma TermsInNumbers(o: Order, ticks: Ticks, tick: real, price: real)
    ensures HasLimit(o.kind) <==> o.kind.LIMIT? || o.kind.STOP_LIMIT?
    ensures WithinLimit(o, price) ==>
              && o.limitPrice.Some?
              && (o.side.BUY? ==> price <= o.limitPrice.value) && (o.side.SELL? ==> price >= o.limitPrice.value)
    ensures Crosses(o, tick) ==>
              && o.stopPrice.Some?
              && (o.side.BUY? ==> tick >= o.stopPrice.value) && (o.side.SELL? ==> tick <= o.stopPrice.value)
    ensures Crossed(o, ticks) ==>
              && o.stopPrice.Some?
              && exists t: real :: (o.symbol, t) in ticks
                   && (o.side.BUY? ==> t >= o.stopPrice.value) && (o.side.SELL? ==> t <= o.stopPrice.value)
  {}

  lemma TickOfFill(s: Sys, o: Order, n: nat) returns (tick: real)
    requires o.requested > 0.0
    requires var key := FillKey(o.id, Cum(o.requested, Depth(o.symbol), n + 1));
             key in s.db.fills
               && Honest(o, s.ticks, Cum(o.requested, Depth(o.symbol), n), s.db.fills[key].quantity,
                         s.db.fills[key].price)
    ensures var p, key := GetLiquidityProfile(o.symbol), FillKey(o.id, Cum(o.requested, Depth(o.symbol), n + 1));
            && (o.symbol, tick) in s.ticks && (o.kind.STOP? ==> Crosses(o, tick))
            && s.db.fills[key].price == ExecPrice(o.side, o.symbol, tick, Cum(o.requested, Depth(o.symbol), n))
            && s.db.fills[key].price == LevelPrice(Touch(o.side, tick, p), PerLevel(o.side, p), n)
  {
    hide Crosses, Crossed, WithinLimit;
    var p, key := GetLiquidityProfile(o.symbol), FillKey(o.id, Cum(o.requested, Depth(o.symbol), n + 1));
    var from := Cum(o.requested, p.availableDepth, n);
    tick :| (o.symbol, tick) in s.ticks && s.db.fills[key].price == ExecPrice(o.side, o.symbol, tick, from)
      && (o.kind.STOP? ==> Crosses(o, tick));
    SliceShape(o.side, tick, p, o.requested, n);
  }

  // ---- what a whole order costs ---------------------------------------------------------------

  /** Every fill of the order was priced from one reference price. */
  ghost predicate PricedFrom(fills: Fills, o: Order, ref: real) {
    forall k | k in fills && k.orderId == o.id ::
      fills[k].price == ExecPrice(o.side, o.symbol, ref, k.execution - fills[k].quantity)
  }

  function SliceCost(quantity: nat -> real, price: nat -> real): nat -> real {
    (n: nat) => quantity(n) * price(n)
  }

  lemma {:induction false} CostIsPartial(quantity: nat -> real, price: nat -> real, m: nat)
    ensures Partial(SliceCost(quantity, price), m) == TotalCost(quantity, price, m)
  {
    if m > 0 { CostIsPartial(quantity, price, m - 1); }
  }

  lemma CostOfIs(k: FillKey, f: Fill, quantity: nat -> real, price: nat -> real, i: nat)
    requires f.quantity == quantity(i) && f.price == price(i)
    ensures CostOf(k.orderId)(k, f) == SliceCost(quantity, price)(i)
  {
    SameProduct(f.quantity, f.price, quantity(i), price(i));
  }

  lemma PriceIs(side: Side, symbol: Symbol, ref: real, p: Profile, requested: real, n: nat, from: real)
    requires p == GetLiquidityProfile(symbol) && from == Cum(requested, p.availableDepth, n)
    ensures ExecPrice(side, symbol, ref, from) == SlicePrice(side, ref, p, requested)(n)
  {
    hide CalculateExecutablePrice;
  }

  lemma PriceOfNth(fills: Fills, o: Order, ref: real, p: Profile, key: FillKey, n: nat)
    requires key in fills && key.orderId == o.id && PricedFrom(fills, o, ref) && p == GetLiquidityProfile(o.symbol)
    requires key.execution - fills[key].quantity == Cum(o.requested, p.availableDepth, n)
    ensures fills[key].price == SlicePrice(o.side, ref, p, o.requested)(n)
  {
    hide ExecPrice, SlicePrice, Cum;
    PriceIs(o.side, o.symbol, ref, p, o.requested, n, key.execution - fills[key].quantity);
  }

  lemma FillCost(orders: map<Id, Order>, fills: Fills, ticks: Ticks, o: Order, p: Profile, m: nat, ref: real, i: nat)
    requires DbOk(orders, fills, ticks) && o.id in orders && orders[o.id] == o && o.requested > 0.0
    requires ChainAt(fills, o, m) && i < m && PricedFrom(fills, o, ref) && p == GetLiquidityProfile(o.symbol)
    ensures var key := FillKey(o.id, Cum(o.requested, p.availableDepth, i + 1));
            && key in fills
            && CostOf(o.id)(key, fills[key])
                 == SliceCost(SliceQuantity(o.requested, p.availableDepth), SlicePrice(o.side, ref, p, o.requested))(i)
  {
    hide DbOk, Honest, ChainAt, PricedFrom, CostOf, SliceCost, SlicePrice, GetLiquidityProfile;
    var key := FillKey(o.id, Cum(o.requested, p.availableDepth, i + 1));
    NthFill(orders, fills, ticks, o, m, i);
    PriceOfNth(fills, o, ref, p, key, i);
    CostOfIs(key, fills[key], SliceQuantity(o.requested, p.availableDepth), SlicePrice(o.side, ref, p, o.requested), i);
  }

  lemma OthersCostNothing(fills: Fills, id: Id)
    ensures forall k: FillKey | k in fills && k.orderId != id :: CostOf(id)(k, fills[k]) == 0.0
  {}

  /** At a constant reference price a completely filled order took ceil(requested/depth) fills and moved, in
      all, exactly the closed-form amount. */
  lemma WholeOrderCost(s: Sys, steps: seq<Step>, id: Id, ref: real, n: nat, r: real)
    requires Fresh(s) && id in Reach(s, steps).db.orders
    requires var o := Reach(s, steps).db.orders[id];
             && o.filled == o.requested && 0.0 <= r < Depth(o.symbol) && o.requested == n as real * Depth(o.symbol) + r
             && PricedFrom(Reach(s, steps).db.fills, o, ref)
    ensures var now := Reach(s, steps).db;
            var o := now.orders[id];
            var p := GetLiquidityProfile(o.symbol);
            && ChainAt(now.fills, o, if r > 0.0 then n + 1 else n)
            && Sum(now.fills, CostOf(id))
               == Closed(o.requested, n as real, Depth(o.symbol), r, Touch(o.side, ref, p), PerLevel(o.side, p),
                        (n * (n - 1) / 2) as real)
  {
    hide Reach, Inv, PricedFrom, Closed, Next, Touch, PerLevel, CostOf;
    var now := Reach(s, steps);
    PipelineInvariant(s, steps);
    TimesIsProduct(n, Depth(now.db.orders[id].symbol));
    TriangleClosed(n);
    hide Times, Triangle;
    CostOfWhole(now, id, ref, n, r);
  }

  lemma SlicesOfWhole(fills: Fills, o: Order, n: nat, r: real)
    requires OnChain(fills, o) && o.requested > 0.0 && o.filled == o.requested
    requires 0.0 <= r < Depth(o.symbol) && o.requested == Times(n, Depth(o.symbol)) + r
    ensures ChainAt(fills, o, if r > 0.0 then n + 1 else n)
  {
    var d, slices := Depth(o.symbol), if r > 0.0 then n + 1 else n;
    var m: nat :| ChainAt(fills, o, m);
    SlicesNeeded(o.requested, d, n, r);
    if m < slices {
      CumMonotone(o.requested, d, m, slices - 1);
    } else if slices < m {
      CumMonotone(o.requested, d, slices, m - 1);
    }
  }

  lemma CostOfWhole(s: Sys, id: Id, ref: real, n: nat, r: real)
    requires Inv(s) && id in s.db.orders
    requires var o := s.db.orders[id];
             && o.filled == o.requested && 0.0 <= r < Depth(o.symbol) && o.requested == Times(n, Depth(o.symbol)) + r
             && PricedFrom(s.db.fills, o, ref)
    ensures var o := s.db.orders[id];
            var p := GetLiquidityProfile(o.symbol);
            && ChainAt(s.db.fills, o, if r > 0.0 then n + 1 else n)
            && Sum(s.db.fills, CostOf(id))
               == Closed(o.requested, n as real, Depth(o.symbol), r, Touch(o.side, ref, p), PerLevel(o.side, p),
                        Triangle(n) as real)
  {
    hide Laws, MemoryOk, Closed, FillOk, PricedFrom, CalculateExecutablePrice, CostOf, SliceCost, TotalCost;
    hide SliceQuantity, SlicePrice, Touch, PerLevel;
    OrderShape(s.db, id);
    hide Shape;
    var o, p := s.db.orders[id], GetLiquidityProfile(s.db.orders[id].symbol);
    var m := if r > 0.0 then n + 1 else n;
    var quantity, price := SliceQuantity(o.requested, p.availableDepth), SlicePrice(o.side, ref, p, o.requested);
    SlicesOfWhole(s.db.fills, o, n, r);
    forall i: nat | i < m && FillKey(id, Cum(o.requested, p.availableDepth, i + 1)) in s.db.fills
      ensures CostOf(id)(FillKey(id, Cum(o.requested, p.availableDepth, i + 1)),
                         s.db.fills[FillKey(id, Cum(o.requested, p.availableDepth, i + 1))])
           == SliceCost(quantity, price)(i)
    {
      FillCost(s.db.orders, s.db.fills, s.ticks, o, p, m, ref, i);
    }
    OthersCostNothing(s.db.fills, id);
    SumOverChain(s.db.fills, id, o.requested, p.availableDepth, m, CostOf(id), SliceCost(quantity, price));
    CostIsPartial(quantity, price, m);
    CostOfSlices(o.side, ref, p, o.requested, n, r);
  }
}
