/** The pipeline's database is always one a sequence of service calls could have produced, and a cash
    portfolio that buys with limits stays solvent in it. */
module Solvency {
  import opened Sums
  import opened Domain
  import opened Trade
  import opened OrderSpec
  import opened LiquidationSpec
  import opened Actions
  import opened Reservations
  import opened Steps
  import opened EngineSpec
  import opened System
  import opened Execution
  import opened ExactlyOnce

  // ---- every pipeline state is a service run ---------------------------------------------------

  lemma NextIsAct(s: Sys, step: Step) returns (actions: seq<Action>)
    ensures |actions| <= 1 && Next(s, step).db == (if actions == [] then s.db else Act(s.db, actions[0]))
  {
    match step
    case Service(a) => actions := if a.Fill? || a.ActivateStopLimit? then [] else [a];
    case RunActivation(a) => actions := if Next(s, step).db == s.db then [] else [ActivateStopLimit(a.met.id)];
    case DeliverJob(j) => actions := if j in s.jobs then [Actions.Fill(DtoOf(j))] else [];
    case _ => actions := [];
  }

  /** Whatever the engines, queues and readers do, the database only ever goes through service calls: every
      law proved of all service runs holds in every state of the pipeline. */
  lemma {:induction false} ReachIsRun(s: Sys, steps: seq<Step>) returns (actions: seq<Action>)
    ensures Reach(s, steps).db == Run(s.db, actions)
  {
    hide Next, Act;
    actions := [];
    if steps != [] {
      var before := ReachIsRun(s, steps[..|steps| - 1]);
      var more := NextIsAct(Reach(s, steps[..|steps| - 1]), steps[|steps| - 1]);
      actions := before + more;
      if more == [] {
        assert actions == before;
      } else {
        assert actions[..|actions| - 1] == before && actions[|actions| - 1] == more[0];
      }
    }
  }

  // ---- available cash --------------------------------------------------------------------------

  function Available(p: Portfolio): real {
    p.totalCash - p.lockedCash
  }

  predicate LimitBuy(o: Order) {
    o.side.BUY? ==> HasLimit(o.kind) && !o.isLiquidation && o.limitPrice.Some? && o.limitPrice.value >= 0.0
  }

  /** The portfolio buys with limit prices only. */
  ghost predicate LimitBuysOnly(orders: map<Id, Order>, pid: Id) {
    forall id | id in orders && orders[id].portfolioId == pid :: LimitBuy(orders[id])
  }

  predicate IsCash(db: Db, pid: Id) {
    pid in db.portfolios && !db.portfolios[pid].isMarginEnabled
  }

  lemma ProductNotNegative(a: real, b: real)
    requires a >= 0.0 && b >= 0.0
    ensures a * b >= 0.0
  {}

  lemma HeldNotNegative(o: Order)
    requires QuantitiesOk(o) && OriginOk(o) && LimitBuy(o)
    ensures CashHeld(o) >= 0.0
  {
    if o.side.BUY? { ProductNotNegative(Remaining(o), o.reservationPrice.GetOr(0.0)); }
  }

  lemma LockedNotNegative(db: Db, pid: Id)
    requires Shape(db) && Laws(db) && IsCash(db, pid) && LimitBuysOnly(db.orders, pid)
    ensures db.portfolios[pid].lockedCash >= 0.0
  {
    hide CashHeld;
    assert CashLawAt(pid, db.portfolios, db.orders);
    forall id | id in db.orders ensures CashTerm(pid)(id, db.orders[id]) >= 0.0 {
      OrderShape(db, id);
      if db.orders[id].portfolioId == pid { HeldNotNegative(db.orders[id]); }
    }
    SumOfNonNegatives(db.orders, CashTerm(pid));
  }

  /** Releasing the rest of an order only gives cash back. */
  lemma EndFreesCash(db: Db, id: Id, final: OrderStatus, pid: Id)
    requires Shape(db) && IsCash(db, pid) && LimitBuysOnly(db.orders, pid) && (final.CANCELLED? || final.EXPIRED?)
    ensures IsCash(End(db, id, final).0, pid)
    ensures Available(End(db, id, final).0.portfolios[pid]) >= Available(db.portfolios[pid])
  {
    hide CashHeld, MarginShare;
    if id in db.orders && IsValidTransition(db.orders[id].status, final) {
      OrderShape(db, id);
      if db.orders[id].portfolioId == pid { HeldNotNegative(db.orders[id]); }
    }
  }

  predicate BuyPlaced(step: Step, pid: Id) {
    step.Service? && step.action.PlaceOrder? && step.action.dto.side.BUY? && step.action.dto.portfolioId == pid
  }

  lemma PlaceMovesAvailable(db: Db, dto: PlaceOrderDto, id: Id, open: bool, pid: Id)
    requires IsCash(db, pid)
    ensures var db' := Place(db, dto, id, open).0;
            && IsCash(db', pid)
            && (Available(db.portfolios[pid]) >= 0.0 ==> Available(db'.portfolios[pid]) >= 0.0)
            && (!(dto.side.BUY? && dto.portfolioId == pid) ==>
                Available(db'.portfolios[pid]) == Available(db.portfolios[pid]))
  {
    hide CashToReserve, MarginToReserve, NewOrder, LacksPrice, ExposureIncrease;
    if dto.side.SELL? { NothingReserved(dto); }
  }

  lemma NothingReserved(dto: PlaceOrderDto)
    requires dto.side.SELL?
    ensures CashToReserve(dto) == 0.0
  {}

  lemma ActMovesAvailable(db: Db, a: Action, pid: Id)
    requires Shape(db) && IsCash(db, pid) && LimitBuysOnly(db.orders, pid) && !a.Fill?
    ensures IsCash(Act(db, a), pid)
    ensures Available(db.portfolios[pid]) >= 0.0 ==> Available(Act(db, a).portfolios[pid]) >= 0.0
    ensures !BuyPlaced(Service(a), pid) ==> Available(Act(db, a).portfolios[pid]) >= Available(db.portfolios[pid])
  {
    hide Place, End, Shape, LimitBuysOnly;
    if FreshId(db, a) {
      match a
      case PlaceOrder(dto, id, open) => PlaceMovesAvailable(db, dto, id, open, pid);
      case MarkOrderPending(id, before, inside) => EndFreesCash(db, id, EXPIRED, pid);
      case ActivateStopLimit(id) =>
      case CancelOrder(id) => EndFreesCash(db, id, CANCELLED, pid);
      case ExpireOrder(id) => EndFreesCash(db, id, EXPIRED, pid);
      case EvaluatePortfolio(p, prices, ranking, open, id) => EvaluateSteps(db, p, prices, ranking, open, id);
    }
  }

  /** A fill moves available cash by the reservation it uses up less what it costs. */
  lemma FillMovesAvailable(db: Db, o: Order, dto: FillOrderDto, pid: Id)
    requires o.portfolioId in db.portfolios && IsCash(db, pid)
    ensures IsCash(Filled(db, o, dto), pid)
    ensures Available(Filled(db, o, dto).portfolios[pid])
         == Available(db.portfolios[pid])
           + (if o.portfolioId == pid then CashUsed(o, dto.quantity) - Signed(o.side, Cost(dto)) else 0.0)
  {
    hide Cost, CashUsed, MarginShare, PositionFilled, Realized, FillEntries;
  }

  lemma ProductOrder(q: real, x: real, y: real)
    requires q > 0.0
    ensures q * x <= q * y <==> x <= y
  {
    if x <= y { ProductNotNegative(q, y - x); }
  }

  /** Exactly when the price is within the reservation price does a buy fill leave no less available. */
  lemma BuyWithinReservation(db: Db, o: Order, dto: FillOrderDto)
    requires IsCash(db, o.portfolioId) && o.side.BUY? && dto.quantity > 0.0
    ensures IsCash(Filled(db, o, dto), o.portfolioId)
    ensures Available(Filled(db, o, dto).portfolios[o.portfolioId]) >= Available(db.portfolios[o.portfolioId])
       <==> dto.price <= o.reservationPrice.GetOr(0.0)
  {
    hide Filled, Cost, CashUsed;
    FillMovesAvailable(db, o, dto, o.portfolioId);
    CostAgainstReservation(o, dto);
  }

  lemma CostAgainstReservation(o: Order, dto: FillOrderDto)
    requires o.side.BUY? && dto.quantity > 0.0
    ensures Cost(dto) <= CashUsed(o, dto.quantity) <==> dto.price <= o.reservationPrice.GetOr(0.0)
  {
    ProductOrder(dto.quantity, dto.price, o.reservationPrice.GetOr(0.0));
  }

  lemma JobMovesAvailable(s: Sys, j: Job, pid: Id)
    requires Inv(s) && IsCash(s.db, pid) && LimitBuysOnly(s.db.orders, pid)
    ensures IsCash(Next(s, DeliverJob(j)).db, pid)
    ensures Available(Next(s, DeliverJob(j)).db.portfolios[pid]) >= Available(s.db.portfolios[pid])
  {
    hide Laws, DbOk, MemoryOk, Filled, Cost, Honest, ProcessFill, OnChain;
    if j in s.jobs && Next(s, DeliverJob(j)).db != s.db {
      JobIn(s, j);
      FillAllOrNothing(s.db, DtoOf(j));
      OrderShape(s.db, j.orderId);
      var o := s.db.orders[j.orderId];
      FillMovesAvailable(s.db, o, DtoOf(j), pid);
      if o.portfolioId == pid { JobCostCovered(o, s.ticks, j); }
    }
  }

  lemma JobCostCovered(o: Order, ticks: Ticks, j: Job)
    requires Honest(o, ticks, j.execution - j.quantity, j.quantity, j.price) && OriginOk(o) && LimitBuy(o)
    requires Cost(DtoOf(j)) >= 0.0
    ensures CashUsed(o, j.quantity) - Signed(o.side, Cost(DtoOf(j))) >= 0.0
  {
    hide PricedAt, Crossed;
    if o.side.BUY? { CostAgainstReservation(o, DtoOf(j)); }
  }

  /** Available cash of such a portfolio falls only when a buy is placed, and never below zero. */
  lemma NextMovesAvailable(s: Sys, step: Step, pid: Id)
    requires Inv(s) && IsCash(s.db, pid) && LimitBuysOnly(s.db.orders, pid)
    ensures IsCash(Next(s, step).db, pid)
    ensures Available(s.db.portfolios[pid]) >= 0.0 ==> Available(Next(s, step).db.portfolios[pid]) >= 0.0
    ensures !BuyPlaced(step, pid) ==> Available(Next(s, step).db.portfolios[pid]) >= Available(s.db.portfolios[pid])
  {
    hide Laws, Shape, DbOk, MemoryOk, LimitBuysOnly, Act, Available;
    match step
    case Service(a) => if !a.Fill? { ActMovesAvailable(s.db, a, pid); }
    case RunActivation(a) =>
    case DeliverJob(j) => JobMovesAvailable(s, j, pid);
    case _ =>
  }

  lemma LimitsBefore(s: Sys, step: Step, pid: Id)
    requires Inv(s) && LimitBuysOnly(Next(s, step).db.orders, pid)
    ensures LimitBuysOnly(s.db.orders, pid)
  {
    hide Laws, DbOk, MemoryOk, Next, Act;
    var actions := NextIsAct(s, step);
    if actions != [] {
      ActMoves(s.db, actions[0]);
      forall id | id in s.db.orders && s.db.orders[id].portfolioId == pid ensures LimitBuy(s.db.orders[id]) {
        assert OrderMoves(s.db.orders[id], Next(s, step).db.orders[id]);
      }
    }
  }

  /** Solvency: a cash portfolio that buys with limits and is filled by engine jobs never locks more cash than
      it has, in any reachable state, whatever else happens. */
  lemma {:induction false} SolventThroughout(s: Sys, steps: seq<Step>, pid: Id)
    requires Fresh(s) && IsCash(s.db, pid) && s.db.portfolios[pid].totalCash >= 0.0
    requires LimitBuysOnly(Reach(s, steps).db.orders, pid)
    ensures IsCash(Reach(s, steps).db, pid)
    ensures 0.0 <= Reach(s, steps).db.portfolios[pid].lockedCash <= Reach(s, steps).db.portfolios[pid].totalCash
  {
    hide Next, Laws, Shape, DbOk, MemoryOk, LimitBuysOnly;
    PipelineInvariant(s, steps);
    if steps != [] {
      var before := Reach(s, steps[..|steps| - 1]);
      PipelineInvariant(s, steps[..|steps| - 1]);
      LimitsBefore(before, steps[|steps| - 1], pid);
      SolventThroughout(s, steps[..|steps| - 1], pid);
      NextMovesAvailable(before, steps[|steps| - 1], pid);
    }
    LockedNotNegative(Reach(s, steps).db, pid);
  }
}
