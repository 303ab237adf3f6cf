/** Exactly-once execution at honest prices: the invariant of the whole pipeline and its consequences. */
module Execution {
  import opened Prelude
  import opened Liquidity
  import opened Slices
  import opened Domain
  import opened OrderSpec
  import opened LiquidationSpec
  import opened Actions
  import opened Reservations
  import opened Steps
  import opened EngineSpec
  import opened System

  type Fills = map<FillKey, Fill>
  type Ticks = set<(Symbol, real)>

  // ---- the invariant -------------------------------------------------------------------------

  /** x is one of the cumulative quantities c(1) .. c(m). */
  ghost predicate ReachedBy(requested: real, depth: real, m: nat, x: real) {
    exists k: nat :: 1 <= k <= m && x == Cum(requested, depth, k)
  }

  /** After m slices: the filled quantity is c(m), and the order's executions are exactly c(1) .. c(m). */
  ghost predicate ChainAt(fills: Fills, o: Order, m: nat) {
    && o.filled == Cum(o.requested, Depth(o.symbol), m)
    && (m > 0 ==> Cum(o.requested, Depth(o.symbol), m - 1) < o.requested)
    && (forall x: real :: FillKey(o.id, x) in fills <==> ReachedBy(o.requested, Depth(o.symbol), m, x))
  }

  ghost predicate OnChain(fills: Fills, o: Order) {
    exists m: nat :: ChainAt(fills, o, m)
  }

  ghost predicate Chains(orders: map<Id, Order>, fills: Fills) {
    && (forall id | id in orders :: OnChain(fills, orders[id]))
    && (forall k | k in fills :: k.orderId in orders)
  }

  /** A cumulative quantity the order has stood at. */
  predicate Point(fills: Fills, id: Id, x: real) {
    x == 0.0 || FillKey(id, x) in fills
  }

  ghost predicate Crossed(o: Order, ticks: Ticks) {
    exists t: real :: (o.symbol, t) in ticks && Crosses(o, t)
  }

  /** The price is the executable one, at a tick, for an order filled up to `from`; a STOP needs that very
      tick to cross. */
  ghost predicate PricedAt(o: Order, ticks: Ticks, from: real, price: real) {
    exists t: real ::
      (o.symbol, t) in ticks && price == ExecPrice(o.side, o.symbol, t, from) && (o.kind.STOP? ==> Crosses(o, t))
  }

  /** A slice the order's terms allow: right size, right slippage level, within the limit, after the stop. */
  ghost predicate Honest(o: Order, ticks: Ticks, from: real, quantity: real, price: real) {
    && 0.0 < quantity == Min(o.requested - from, Depth(o.symbol))
    && PricedAt(o, ticks, from, price)
    && (HasLimit(o.kind) ==> WithinLimit(o, price))
    && (o.kind.STOP_LIMIT? ==> Crossed(o, ticks))
  }

  ghost predicate SnapshotOk(orders: map<Id, Order>, fills: Fills, ticks: Ticks, o: Order) {
    && o.id in orders && SameTerms(orders[o.id], o)
    && Point(fills, o.id, o.filled)
    && (o.kind.STOP_LIMIT? && o.isActivated ==> Crossed(o, ticks))
  }

  ghost predicate JobOk(orders: map<Id, Order>, fills: Fills, ticks: Ticks, j: Job) {
    && j.orderId in orders
    && Point(fills, j.orderId, j.execution - j.quantity)
    && Honest(orders[j.orderId], ticks, j.execution - j.quantity, j.quantity, j.price)
  }

  ghost predicate FillOk(orders: map<Id, Order>, fills: Fills, ticks: Ticks, k: FillKey)
    requires k in fills
  {
    && k.orderId in orders
    && Point(fills, k.orderId, k.execution - fills[k].quantity)
    && Honest(orders[k.orderId], ticks, k.execution - fills[k].quantity, fills[k].quantity, fills[k].price)
  }

  ghost predicate ActivationOk(orders: map<Id, Order>, fills: Fills, ticks: Ticks, a: Activation) {
    SnapshotOk(orders, fills, ticks, a.met) && a.met.kind.STOP_LIMIT? && Crossed(a.met, ticks)
      && (a.met.symbol, a.tick) in ticks
  }

  ghost predicate ResumptionOk(orders: map<Id, Order>, fills: Fills, ticks: Ticks, r: Resumption) {
    && SnapshotOk(orders, fills, ticks, r.met) && SnapshotOk(orders, fills, ticks, r.activated)
    && r.met.id == r.activated.id && r.met.kind.STOP_LIMIT? && r.met.filled == r.activated.filled == 0.0
    && Crossed(r.met, ticks) && (r.met.symbol, r.tick) in ticks
  }

  ghost predicate EntryOk(orders: map<Id, Order>, fills: Fills, ticks: Ticks, symbol: Symbol, id: Id,
                          entry: EngineOrder) {
    entry.order.id == id && entry.order.symbol == symbol && SnapshotOk(orders, fills, ticks, entry.order)
  }

  ghost predicate EngineOk(orders: map<Id, Order>, fills: Fills, ticks: Ticks, e: Engine) {
    forall symbol, id | symbol in e.books && id in e.books[symbol] ::
      EntryOk(orders, fills, ticks, symbol, id, e.books[symbol][id])
  }

  ghost predicate DbOk(orders: map<Id, Order>, fills: Fills, ticks: Ticks) {
    && Chains(orders, fills)
    && (forall k | k in fills :: FillOk(orders, fills, ticks, k))
    && (forall id | id in orders && orders[id].kind.STOP_LIMIT? && orders[id].isActivated :: Crossed(orders[id], ticks))
  }

  ghost predicate MemoryOk(orders: map<Id, Order>, fills: Fills, ticks: Ticks, s: Sys) {
    && (forall o | o in s.rows :: SnapshotOk(orders, fills, ticks, o))
    && (forall e | e in s.engines :: EngineOk(orders, fills, ticks, s.engines[e]))
    && (forall a | a in s.activations :: ActivationOk(orders, fills, ticks, a))
    && (forall r | r in s.resumptions :: ResumptionOk(orders, fills, ticks, r))
    && (forall j | j in s.jobs :: JobOk(orders, fills, ticks, j))
  }

  ghost predicate Inv(s: Sys) {
    && Shape(s.db) && Laws(s.db)
    && DbOk(s.db.orders, s.db.fills, s.ticks)
    && MemoryOk(s.db.orders, s.db.fills, s.ticks, s)
  }

  // ---- what was true of a snapshot stays true -------------------------------------------------

  ghost predicate Grows(orders: map<Id, Order>, orders': map<Id, Order>, fills: Fills, fills': Fills, ticks: Ticks,
                        ticks': Ticks) {
    && OrdersMove(orders, orders') && fills.Keys <= fills'.Keys && ticks <= ticks'
    && (forall k | k in fills :: fills'[k] == fills[k])
  }

  lemma SnapshotGrows(orders: map<Id, Order>, orders': map<Id, Order>, fills: Fills, fills': Fills, ticks: Ticks,
                      ticks': Ticks, o: Order)
    requires Grows(orders, orders', fills, fills', ticks, ticks') && SnapshotOk(orders, fills, ticks, o)
    ensures SnapshotOk(orders', fills', ticks', o)
  {
    assert OrderMoves(orders[o.id], orders'[o.id]);
    assert FillKey(o.id, o.filled) in fills.Keys ==> FillKey(o.id, o.filled) in fills'.Keys;
    if Crossed(o, ticks) { CrossedGrows(o, o, ticks, ticks'); }
  }

  lemma CrossedGrows(o: Order, o': Order, ticks: Ticks, ticks': Ticks)
    requires Crossed(o, ticks) && ticks <= ticks' && SameTerms(o, o')
    ensures Crossed(o', ticks')
  {
    var t: real :| (o.symbol, t) in ticks && Crosses(o, t);
    assert (o'.symbol, t) in ticks' && Crosses(o', t);
  }

  lemma HonestGrows(o: Order, o': Order, ticks: Ticks, ticks': Ticks, from: real, quantity: real, price: real)
    requires Honest(o, ticks, from, quantity, price) && ticks <= ticks' && SameTerms(o, o')
    ensures Honest(o', ticks', from, quantity, price)
  {
    hide ExecPrice;
    var t: real :| (o.symbol, t) in ticks && price == ExecPrice(o.side, o.symbol, t, from)
      && (o.kind.STOP? ==> Crosses(o, t));
    assert (o'.symbol, t) in ticks';
    if o.kind.STOP_LIMIT? { CrossedGrows(o, o', ticks, ticks'); }
  }

  lemma JobGrows(orders: map<Id, Order>, orders': map<Id, Order>, fills: Fills, fills': Fills, ticks: Ticks,
                 ticks': Ticks, j: Job)
    requires Grows(orders, orders', fills, fills', ticks, ticks') && JobOk(orders, fills, ticks, j)
    ensures JobOk(orders', fills', ticks', j)
  {
    hide Honest;
    assert OrderMoves(orders[j.orderId], orders'[j.orderId]);
    PointGrows(fills, fills', j.orderId, j.execution - j.quantity);
    HonestGrows(orders[j.orderId], orders'[j.orderId], ticks, ticks', j.execution - j.quantity, j.quantity, j.price);
  }

  lemma PointGrows(fills: Fills, fills': Fills, id: Id, x: real)
    requires Point(fills, id, x) && fills.Keys <= fills'.Keys
    ensures Point(fills', id, x)
  {
    if FillKey(id, x) in fills { assert FillKey(id, x) in fills.Keys; }
  }

  lemma FillGrows(orders: map<Id, Order>, orders': map<Id, Order>, fills: Fills, fills': Fills, ticks: Ticks,
                  ticks': Ticks, k: FillKey)
    requires Grows(orders, orders', fills, fills', ticks, ticks') && k in fills && FillOk(orders, fills, ticks, k)
    ensures k in fills' && FillOk(orders', fills', ticks', k)
  {
    hide Honest;
    assert k in fills.Keys;
    assert OrderMoves(orders[k.orderId], orders'[k.orderId]);
    PointGrows(fills, fills', k.orderId, k.execution - fills[k].quantity);
    HonestGrows(orders[k.orderId], orders'[k.orderId], ticks, ticks', k.execution - fills[k].quantity,
                fills[k].quantity, fills[k].price);
  }

  lemma MemoryGrows(orders: map<Id, Order>, orders': map<Id, Order>, fills: Fills, fills': Fills, ticks: Ticks,
                    ticks': Ticks, s: Sys)
    requires Grows(orders, orders', fills, fills', ticks, ticks') && MemoryOk(orders, fills, ticks, s)
    ensures MemoryOk(orders', fills', ticks', s)
  {
    hide Grows, SnapshotOk, JobOk, Crossed;
    forall o | o in s.rows ensures SnapshotOk(orders', fills', ticks', o) {
      SnapshotGrows(orders, orders', fills, fills', ticks, ticks', o);
    }
    forall e | e in s.engines ensures EngineOk(orders', fills', ticks', s.engines[e]) {
      EngineGrows(orders, orders', fills, fills', ticks, ticks', s.engines[e]);
    }
    forall a | a in s.activations ensures ActivationOk(orders', fills', ticks', a) {
      ActivationGrows(orders, orders', fills, fills', ticks, ticks', a);
    }
    forall r | r in s.resumptions ensures ResumptionOk(orders', fills', ticks', r) {
      ResumptionGrows(orders, orders', fills, fills', ticks, ticks', r);
    }
    forall j | j in s.jobs ensures JobOk(orders', fills', ticks', j) {
      JobGrows(orders, orders', fills, fills', ticks, ticks', j);
    }
  }

  lemma EngineGrows(orders: map<Id, Order>, orders': map<Id, Order>, fills: Fills, fills': Fills, ticks: Ticks,
                    ticks': Ticks, e: Engine)
    requires Grows(orders, orders', fills, fills', ticks, ticks') && EngineOk(orders, fills, ticks, e)
    ensures EngineOk(orders', fills', ticks', e)
  {
    hide Grows, SnapshotOk;
    forall symbol, id | symbol in e.books && id in e.books[symbol]
      ensures EntryOk(orders', fills', ticks', symbol, id, e.books[symbol][id])
    {
      assert EntryOk(orders, fills, ticks, symbol, id, e.books[symbol][id]);
      SnapshotGrows(orders, orders', fills, fills', ticks, ticks', e.books[symbol][id].order);
    }
  }

  lemma ActivationGrows(orders: map<Id, Order>, orders': map<Id, Order>, fills: Fills, fills': Fills, ticks: Ticks,
                        ticks': Ticks, a: Activation)
    requires Grows(orders, orders', fills, fills', ticks, ticks') && ActivationOk(orders, fills, ticks, a)
    ensures ActivationOk(orders', fills', ticks', a)
  {
    hide SnapshotOk;
    SnapshotGrows(orders, orders', fills, fills', ticks, ticks', a.met);
    CrossedGrows(a.met, a.met, ticks, ticks');
  }

  lemma ResumptionGrows(orders: map<Id, Order>, orders': map<Id, Order>, fills: Fills, fills': Fills, ticks: Ticks,
                        ticks': Ticks, r: Resumption)
    requires Grows(orders, orders', fills, fills', ticks, ticks') && ResumptionOk(orders, fills, ticks, r)
    ensures ResumptionOk(orders', fills', ticks', r)
  {
    hide SnapshotOk;
    SnapshotGrows(orders, orders', fills, fills', ticks, ticks', r.met);
    SnapshotGrows(orders, orders', fills, fills', ticks, ticks', r.activated);
    CrossedGrows(r.met, r.met, ticks, ticks');
  }

  // ---- steps of the database that fill nothing ------------------------------------------------

  lemma ChainStays(fills: Fills, o: Order, o': Order)
    requires OnChain(fills, o) && SameTerms(o, o') && o'.filled == o.filled
    ensures OnChain(fills, o')
  {
    var m: nat :| ChainAt(fills, o, m);
    assert ChainAt(fills, o', m);
  }

  lemma NewOnChain(fills: Fills, o: Order)
    requires o.filled == 0.0 && forall x: real :: FillKey(o.id, x) !in fills
    ensures OnChain(fills, o)
  {
    assert ChainAt(fills, o, 0);
  }

  lemma QuietChains(orders: map<Id, Order>, orders': map<Id, Order>, fills: Fills)
    requires Chains(orders, fills) && OrdersMove(orders, orders') && NothingFilled(orders, orders')
    requires forall id | id in orders' :: orders'[id].id == id
    ensures Chains(orders', fills)
  {
    hide OnChain;
    forall id | id in orders' ensures OnChain(fills, orders'[id]) {
      if id in orders { assert OrderMoves(orders[id], orders'[id]); ChainStays(fills, orders[id], orders'[id]); }
      else { NewOnChain(fills, orders'[id]); }
    }
  }

  /** A step that fills nothing keeps what is known of the database, when orders newly activated had crossed. */
  lemma QuietDb(orders: map<Id, Order>, orders': map<Id, Order>, fills: Fills, ticks: Ticks, ticks': Ticks)
    requires DbOk(orders, fills, ticks) && OrdersMove(orders, orders') && NothingFilled(orders, orders')
    requires ticks <= ticks'
    requires forall id | id in orders' :: orders'[id].id == id
    requires forall id | id in orders && orders'[id].kind.STOP_LIMIT? && orders'[id].isActivated ::
      orders[id].isActivated || Crossed(orders[id], ticks)
    ensures DbOk(orders', fills, ticks') && Grows(orders, orders', fills, fills, ticks, ticks')
  {
    hide Chains, FillOk, Crossed;
    QuietChains(orders, orders', fills);
    forall k | k in fills ensures FillOk(orders', fills, ticks', k) {
      FillGrows(orders, orders', fills, fills, ticks, ticks', k);
    }
    forall id | id in orders' && orders'[id].kind.STOP_LIMIT? && orders'[id].isActivated
      ensures Crossed(orders'[id], ticks')
    {
      assert id in orders && OrderMoves(orders[id], orders'[id]);
      CrossedGrows(orders[id], orders'[id], ticks, ticks');
    }
  }

  /** No service action but activateStopLimit activates anything. */
  lemma OnlyActivationActivates(db: Db, a: Action, id: Id)
    requires Shape(db) && !a.ActivateStopLimit? && id in db.orders && id in Act(db, a).orders
    ensures Act(db, a).orders[id].isActivated == db.orders[id].isActivated
  {
    hide Shape;
    if a.Fill? {
      FillAllOrNothing(db, a.fill);
      hide ProcessFill, PortfolioFilled, PositionFilled;
      if a.fill.orderId in db.orders { OrderShape(db, a.fill.orderId); }
    } else if a.MarkOrderPending? {
      MarkPendingSteps(db, a.id, a.openBefore, a.openInside);
      hide MarkPending;
    } else if a.EvaluatePortfolio? {
      EvaluateSteps(db, a.portfolioId, a.prices, a.ranking, a.open, a.newId);
    }
    if a.MarkOrderPending? || a.CancelOrder? || a.ExpireOrder? {
      if a.id in db.orders { OrderShape(db, a.id); }
    }
  }

  lemma IdsMatch(db: Db)
    requires Shape(db)
    ensures forall id | id in db.orders :: db.orders[id].id == id
  {
    forall id | id in db.orders ensures db.orders[id].id == id { assert RowOk(id, db.orders[id]); }
  }

  lemma ServiceKeepsInv(s: Sys, a: Action)
    requires Inv(s) && !a.Fill? && !a.ActivateStopLimit?
    ensures Inv(s.(db := Act(s.db, a)))
  {
    hide Shape, Laws, Act, DbOk, MemoryOk, Grows;
    var db' := Act(s.db, a);
    ActKeepsShape(s.db, a);
    ActKeepsLaws(s.db, a);
    ActIsQuiet(s.db, a);
    IdsMatch(db');
    forall id | id in s.db.orders
      ensures id in db'.orders && db'.orders[id].isActivated == s.db.orders[id].isActivated
    {
      assert id in s.db.orders.Keys;
      OnlyActivationActivates(s.db, a, id);
    }
    QuietDb(s.db.orders, db'.orders, s.db.fills, s.ticks, s.ticks);
    MemoryGrows(s.db.orders, db'.orders, s.db.fills, s.db.fills, s.ticks, s.ticks, s);
    SameMemory(db'.orders, s.db.fills, s.ticks, s, s.(db := db'));
  }

  /** The memory invariant looks at the memory only. */
  lemma SameMemory(orders: map<Id, Order>, fills: Fills, ticks: Ticks, s: Sys, s': Sys)
    requires MemoryOk(orders, fills, ticks, s)
    requires s'.rows <= s.rows && s'.engines == s.engines && s'.activations <= s.activations
    requires s'.resumptions <= s.resumptions && s'.jobs <= s.jobs
    ensures MemoryOk(orders, fills, ticks, s')
  {
    hide SnapshotOk, EngineOk, ActivationOk, ResumptionOk, JobOk;
  }

  lemma TickKeepsInv(s: Sys, symbol: Symbol, price: real)
    requires Inv(s)
    ensures Inv(s.(ticks := s.ticks + {(symbol, price)}))
  {
    hide Shape, Laws, DbOk, MemoryOk, Grows;
    var ticks' := s.ticks + {(symbol, price)};
    IdsMatch(s.db);
    QuietDb(s.db.orders, s.db.orders, s.db.fills, s.ticks, ticks');
    MemoryGrows(s.db.orders, s.db.orders, s.db.fills, s.db.fills, s.ticks, ticks', s);
    SameMemory(s.db.orders, s.db.fills, ticks', s, s.(ticks := ticks'));
  }

  // ---- activations ---------------------------------------------------------------------------

  /** An order nothing was filled of has only ever stood at zero. */
  lemma UnfilledPoint(fills: Fills, o: Order, x: real)
    requires OnChain(fills, o) && o.filled == 0.0 && o.requested > 0.0 && Point(fills, o.id, x)
    ensures x == 0.0
  {
    var m: nat :| ChainAt(fills, o, m);
    CumBounds(o.requested, Depth(o.symbol), m);
    assert x != 0.0 ==> ReachedBy(o.requested, Depth(o.symbol), m, x);
  }

  lemma SameTermsBack(o: Order, o': Order)
    requires SameTerms(o, o')
    ensures SameTerms(o', o)
  {}

  lemma ActivationKeepsDb(s: Sys, a: Activation)
    requires Inv(s) && a in s.activations
    ensures var db' := OrderSpec.Activate(s.db, a.met.id).0;
            && Shape(db') && Laws(db') && db'.fills == s.db.fills
            && DbOk(db'.orders, db'.fills, s.ticks)
                 && Grows(s.db.orders, db'.orders, s.db.fills, db'.fills, s.ticks, s.ticks)
  {
    hide Shape, Laws, DbOk, Grows, Crossed;
    var db' := OrderSpec.Activate(s.db, a.met.id).0;
    ActivateKeepsShape(s.db, a.met.id);
    ActivateKeepsLaws(s.db, a.met.id);
    ActivateIsQuiet(s.db, a.met.id);
    IdsMatch(db');
    assert ActivationOk(s.db.orders, s.db.fills, s.ticks, a);
    SameTermsBack(s.db.orders[a.met.id], a.met);
    CrossedGrows(a.met, s.db.orders[a.met.id], s.ticks, s.ticks);
    QuietDb(s.db.orders, db'.orders, s.db.fills, s.ticks, s.ticks);
  }

  lemma ResumptionFromActivation(s: Sys, a: Activation, db': Db, row: Order)
    requires Inv(s) && a in s.activations && OrderSpec.Activate(s.db, a.met.id) == (db', Ok(row))
    requires MemoryOk(db'.orders, db'.fills, s.ticks, s)
    ensures ResumptionOk(db'.orders, db'.fills, s.ticks, Resumption(a.met, row, a.tick))
  {
    hide Laws, Crossed;
    assert ActivationOk(s.db.orders, s.db.fills, s.ticks, a);
    assert ActivationOk(db'.orders, db'.fills, s.ticks, a);
    var o := s.db.orders[a.met.id];
    OrderShape(s.db, a.met.id);
    UnfilledPoint(s.db.fills, o, a.met.filled);
    SameTermsBack(db'.orders[a.met.id], a.met);
    CrossedGrows(a.met, row, s.ticks, s.ticks);
  }

  lemma RunActivationKeepsInv(s: Sys, a: Activation)
    requires Inv(s)
    ensures Inv(Next(s, RunActivation(a)))
  {
    hide Shape, Laws, DbOk, MemoryOk, Grows, ResumptionOk;
    if a in s.activations {
      var (db', reply) := OrderSpec.Activate(s.db, a.met.id);
      ActivationKeepsDb(s, a);
      if reply.Ok? {
        MemoryGrows(s.db.orders, db'.orders, s.db.fills, db'.fills, s.ticks, s.ticks, s);
        ResumptionFromActivation(s, a, db', reply.value);
        var s' := Next(s, RunActivation(a));
        AddResumption(db'.orders, db'.fills, s.ticks, s, s', Resumption(a.met, reply.value, a.tick));
      }
    }
  }

  lemma AddResumption(orders: map<Id, Order>, fills: Fills, ticks: Ticks, s: Sys, s': Sys, r: Resumption)
    requires MemoryOk(orders, fills, ticks, s) && ResumptionOk(orders, fills, ticks, r)
    requires s'.rows == s.rows && s'.engines == s.engines && s'.activations == s.activations && s'.jobs == s.jobs
    requires s'.resumptions == s.resumptions + {r}
    ensures MemoryOk(orders, fills, ticks, s')
  {
    hide SnapshotOk, EngineOk, ActivationOk, ResumptionOk, JobOk;
  }

  // ---- engine steps --------------------------------------------------------------------------

  lemma EntrySet(orders: map<Id, Order>, fills: Fills, ticks: Ticks, e: Engine, symbol: Symbol, id: Id,
                 entry: Option<EngineOrder>)
    requires EngineOk(orders, fills, ticks, e)
    requires entry.Some? ==> EntryOk(orders, fills, ticks, symbol, id, entry.value)
    ensures EngineOk(orders, fills, ticks, WithEntry(e, symbol, id, entry))
  {
    hide EntryOk;
  }

  lemma AddKeepsEngine(orders: map<Id, Order>, fills: Fills, ticks: Ticks, e: Engine, row: Order)
    requires EngineOk(orders, fills, ticks, e) && SnapshotOk(orders, fills, ticks, row)
    ensures EngineOk(orders, fills, ticks, AddOrder(e, row))
  {
    hide SnapshotOk;
    var e' := AddOrder(e, row);
    if e' != e { EntrySet(orders, fills, ticks, e, row.symbol, row.id, Some(e'.books[row.symbol][row.id])); }
  }

  lemma ShrinkKeepsEngine(orders: map<Id, Order>, fills: Fills, ticks: Ticks, e: Engine, id: Id, symbol: Symbol)
    requires EngineOk(orders, fills, ticks, e)
    ensures EngineOk(orders, fills, ticks, RemoveOrder(e, id, symbol))
    ensures EngineOk(orders, fills, ticks, LoseLease(e, symbol))
  {
    hide EntryOk;
  }

  /** A decision to execute is a slice the terms allow. */
  lemma ExecuteIsHonest(o: Order, tick: real, ticks: Ticks)
    requires (o.symbol, tick) in ticks && Remaining(o) > 0.0 && Decide(o, tick) == Execute
    requires o.kind.STOP_LIMIT? && o.isActivated ==> Crossed(o, ticks)
    ensures Honest(o, ticks, o.filled, NextSlice(o), PriceNow(o, tick))
  {
    hide ExecPrice, Crossed;
    assert PricedAt(o, ticks, o.filled, PriceNow(o, tick));
  }

  lemma JobFromSnapshot(orders: map<Id, Order>, fills: Fills, ticks: Ticks, o: Order, tick: real)
    requires SnapshotOk(orders, fills, ticks, o) && Honest(o, ticks, o.filled, NextSlice(o), PriceNow(o, tick))
    ensures JobOk(orders, fills, ticks, JobFor(o, tick))
  {
    hide Honest, PriceNow;
    SameTermsBack(orders[o.id], o);
    assert o.filled + NextSlice(o) - NextSlice(o) == o.filled;
    HonestGrows(o, orders[o.id], ticks, ticks, o.filled, NextSlice(o), PriceNow(o, tick));
  }

  ghost predicate OutcomeOk(orders: map<Id, Order>, fills: Fills, ticks: Ticks, symbol: Symbol, id: Id, out: Outcome) {
    && (out.entry.Some? ==> EntryOk(orders, fills, ticks, symbol, id, out.entry.value))
    && (out.job.Some? ==> JobOk(orders, fills, ticks, out.job.value))
  }

  lemma EvaluationOk(orders: map<Id, Order>, fills: Fills, ticks: Ticks, symbol: Symbol, id: Id, entry: EngineOrder,
                     tick: real)
    requires EntryOk(orders, fills, ticks, symbol, id, entry) && (symbol, tick) in ticks
    ensures OutcomeOk(orders, fills, ticks, symbol, id, EvaluateEntry(entry, tick))
    ensures EvaluateEntry(entry, tick).activate ==> ActivationOk(orders, fills, ticks, Activation(entry.order, tick))
  {
    hide Honest, JobOk, PriceNow, WithinLimit, ExecPrice;
    var o := entry.order;
    if entry.state.READY? && Decide(o, tick) == Execute && Remaining(o) > 0.0 {
      ExecuteIsHonest(o, tick, ticks);
      JobFromSnapshot(orders, fills, ticks, o, tick);
    }
  }

  lemma ResumptionGivesJob(orders: map<Id, Order>, fills: Fills, ticks: Ticks, symbol: Symbol, id: Id,
                           entry: EngineOrder, r: Resumption)
    requires ResumptionOk(orders, fills, ticks, r) && r.met.symbol == symbol && r.met.id == id
    ensures OutcomeOk(orders, fills, ticks, symbol, id, ResumeEntry(entry, r.met, r.activated, r.tick))
  {
    hide Honest, JobOk, ExecPrice, Crossed;
    var o := r.activated;
    SameTermsBack(orders[id], r.met);
    SameTermsBack(orders[id], o);
    if WithinLimit(r.met, PriceNow(r.met, r.tick)) && Remaining(o) > 0.0 {
      var live := o.(isActivated := true);
      assert SameTerms(r.met, live) && PriceNow(live, r.tick) == PriceNow(r.met, r.tick);
      CrossedGrows(r.met, live, ticks, ticks);
      ExecuteIsHonest(live, r.tick, ticks);
      HonestGrows(live, o, ticks, ticks, o.filled, NextSlice(o), PriceNow(o, r.tick));
      JobFromSnapshot(orders, fills, ticks, o, r.tick);
    }
  }

  lemma SetEngine(orders: map<Id, Order>, fills: Fills, ticks: Ticks, s: Sys, e: nat, engine: Engine)
    requires MemoryOk(orders, fills, ticks, s) && EngineOk(orders, fills, ticks, engine)
    ensures MemoryOk(orders, fills, ticks, s.(engines := s.engines[e := engine]))
  {
    hide SnapshotOk, EngineOk, ActivationOk, ResumptionOk, JobOk;
  }

  lemma AddJob(orders: map<Id, Order>, fills: Fills, ticks: Ticks, s: Sys, job: Option<Job>)
    requires MemoryOk(orders, fills, ticks, s) && (job.Some? ==> JobOk(orders, fills, ticks, job.value))
    ensures MemoryOk(orders, fills, ticks, s.(jobs := s.jobs + JobSet(job)))
  {
    hide SnapshotOk, EngineOk, ActivationOk, ResumptionOk, JobOk;
  }

  lemma AddActivation(orders: map<Id, Order>, fills: Fills, ticks: Ticks, s: Sys, more: set<Activation>)
    requires MemoryOk(orders, fills, ticks, s) && forall a | a in more :: ActivationOk(orders, fills, ticks, a)
    ensures MemoryOk(orders, fills, ticks, s.(activations := s.activations + more))
  {
    hide SnapshotOk, EngineOk, ActivationOk, ResumptionOk, JobOk;
  }

  lemma ApplyKeepsMemory(s: Sys, e: nat, symbol: Symbol, id: Id, out: Outcome)
    requires MemoryOk(s.db.orders, s.db.fills, s.ticks, s) && e in s.engines
    requires OutcomeOk(s.db.orders, s.db.fills, s.ticks, symbol, id, out)
    ensures MemoryOk(s.db.orders, s.db.fills, s.ticks, Apply(s, e, symbol, id, out))
  {
    hide WithEntry, EntryOk, JobOk;
    var engine := WithEntry(s.engines[e], symbol, id, out.entry);
    EngineIn(s.db.orders, s.db.fills, s.ticks, s, e);
    EntrySet(s.db.orders, s.db.fills, s.ticks, s.engines[e], symbol, id, out.entry);
    hide EngineOk, MemoryOk;
    SetEngine(s.db.orders, s.db.fills, s.ticks, s, e, engine);
    AddJob(s.db.orders, s.db.fills, s.ticks, s.(engines := s.engines[e := engine]), out.job);
  }

  lemma EngineIn(orders: map<Id, Order>, fills: Fills, ticks: Ticks, s: Sys, e: nat)
    requires MemoryOk(orders, fills, ticks, s) && e in s.engines
    ensures EngineOk(orders, fills, ticks, s.engines[e])
  {}

  lemma EntryIn(s: Sys, e: nat, symbol: Symbol, id: Id)
    requires MemoryOk(s.db.orders, s.db.fills, s.ticks, s) && HasEntry(s, e, symbol, id)
    ensures EntryOk(s.db.orders, s.db.fills, s.ticks, symbol, id, BookOf(s.engines[e], symbol)[id])
  {
    hide SnapshotOk;
    EngineIn(s.db.orders, s.db.fills, s.ticks, s, e);
  }

  lemma ObserveKeepsInv(s: Sys, e: nat, id: Id, symbol: Symbol, tick: real)
    requires Inv(s)
    ensures Inv(Next(s, Observe(e, id, symbol, tick)))
  {
    hide Shape, Laws, DbOk, MemoryOk, EntryOk, ActivationOk, OutcomeOk, EvaluateEntry, WithEntry;
    if HasEntry(s, e, symbol, id) && (symbol, tick) in s.ticks {
      var entry := BookOf(s.engines[e], symbol)[id];
      EntryIn(s, e, symbol, id);
      EvaluationOk(s.db.orders, s.db.fills, s.ticks, symbol, id, entry, tick);
      var out := EvaluateEntry(entry, tick);
      ApplyKeepsMemory(s, e, symbol, id, out);
      var s1 := Apply(s, e, symbol, id, out);
      AddActivation(s.db.orders, s.db.fills, s.ticks, s1, if out.activate then {Activation(entry.order, tick)} else {});
    }
  }

  lemma FailActivationKeepsInv(s: Sys, e: nat, id: Id, symbol: Symbol)
    requires Inv(s)
    ensures Inv(Next(s, FailActivation(e, id, symbol)))
  {
    hide Shape, Laws, DbOk, MemoryOk, WithEntry, JobOk;
    if HasEntry(s, e, symbol, id) {
      var entry := BookOf(s.engines[e], symbol)[id];
      EntryIn(s, e, symbol, id);
      ApplyKeepsMemory(s, e, symbol, id,
                       Outcome(Some(entry.(order := entry.order.(isActivated := false))), None, false));
    }
  }

  lemma ResumeKeepsInv(s: Sys, e: nat, r: Resumption, attached: bool)
    requires Inv(s)
    ensures Inv(Next(s, Resume(e, r, attached)))
  {
    hide Shape, Laws, DbOk, WithEntry, ResumeEntry, EntryOk, JobOk, SnapshotOk, EngineOk;
    if r in s.resumptions && e in s.engines && r.met.symbol in s.engines[e].owned {
      assert ResumptionOk(s.db.orders, s.db.fills, s.ticks, r);
      var entry := if attached && r.met.id in BookOf(s.engines[e], r.met.symbol)
        then BookOf(s.engines[e], r.met.symbol)[r.met.id] else EngineOrder(r.met, READY, r.met.filled);
      hide MemoryOk, ResumptionOk;
      ResumptionGivesJob(s.db.orders, s.db.fills, s.ticks, r.met.symbol, r.met.id, entry, r);
      var out := ResumeEntry(entry, r.met, r.activated, r.tick);
      if attached && r.met.id in BookOf(s.engines[e], r.met.symbol) {
        ApplyKeepsMemory(s, e, r.met.symbol, r.met.id, out);
      } else {
        AddJob(s.db.orders, s.db.fills, s.ticks, s, out.job);
      }
    }
  }

  lemma MemoryStepKeepsInv(s: Sys, step: Step)
    requires Inv(s) && (step.ReadRow? || step.Start? || step.Lose? || step.Deliver? || step.Evict?)
    ensures Inv(Next(s, step))
  {
    hide Laws, SnapshotOk, EngineOk, LoseLease, AddOrder, RemoveOrder;
    match step
    case ReadRow(id) =>
      if id in s.db.orders && Watchable(s.db.orders[id]) { RowIsSnapshot(s, id); AddRow(s, s.db.orders[id]); }
    case Start(e, owned) =>
      EmptyEngine(s.db.orders, s.db.fills, s.ticks, owned);
      SetEngine(s.db.orders, s.db.fills, s.ticks, s, e, Engine(owned, map[]));
    case Lose(e, symbol) =>
      if e in s.engines {
        ShrinkKeepsEngine(s.db.orders, s.db.fills, s.ticks, s.engines[e], 0, symbol);
        SetEngine(s.db.orders, s.db.fills, s.ticks, s, e, LoseLease(s.engines[e], symbol));
      }
    case Deliver(e, row) =>
      if e in s.engines && row in s.rows {
        AddKeepsEngine(s.db.orders, s.db.fills, s.ticks, s.engines[e], row);
        SetEngine(s.db.orders, s.db.fills, s.ticks, s, e, AddOrder(s.engines[e], row));
      }
    case Evict(e, id, symbol) =>
      if e in s.engines {
        ShrinkKeepsEngine(s.db.orders, s.db.fills, s.ticks, s.engines[e], id, symbol);
        SetEngine(s.db.orders, s.db.fills, s.ticks, s, e, RemoveOrder(s.engines[e], id, symbol));
      }
  }

  lemma EmptyEngine(orders: map<Id, Order>, fills: Fills, ticks: Ticks, owned: set<Symbol>)
    ensures EngineOk(orders, fills, ticks, Engine(owned, map[]))
  {}

  lemma AddRow(s: Sys, o: Order)
    requires MemoryOk(s.db.orders, s.db.fills, s.ticks, s) && SnapshotOk(s.db.orders, s.db.fills, s.ticks, o)
    ensures MemoryOk(s.db.orders, s.db.fills, s.ticks, s.(rows := s.rows + {o}))
  {
    hide SnapshotOk, EngineOk, ActivationOk, ResumptionOk, JobOk;
  }

  lemma CurrentPoint(fills: Fills, o: Order)
    requires OnChain(fills, o)
    ensures Point(fills, o.id, o.filled)
  {
    var m: nat :| ChainAt(fills, o, m);
    if m > 0 { assert ReachedBy(o.requested, Depth(o.symbol), m, o.filled); }
  }

  lemma RowIsSnapshot(s: Sys, id: Id)
    requires Inv(s) && id in s.db.orders
    ensures SnapshotOk(s.db.orders, s.db.fills, s.ticks, s.db.orders[id])
  {
    hide Laws, MemoryOk;
    OrderShape(s.db, id);
    CurrentPoint(s.db.fills, s.db.orders[id]);
  }
}
