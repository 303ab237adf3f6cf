/** Runs of a fresh system, step by step: inputs for which something the design hopes for does not hold. */
module Scenarios {
  import opened Prelude
  import opened Liquidity
  import opened Domain
  import opened Trade
  import opened OrderSpec
  import opened Actions
  import opened EngineSpec
  import opened System
  import opened Dispatch
  import opened Solvency

  // ---- one account, one order, one engine -----------------------------------------------------

  const INFY: Symbol := Symbol("INFY")

  /** User 5 with one cash portfolio and nothing held. */
  function OneAccount(cash: real): Sys {
    Sys(Db(map[1 := Portfolio(5, cash, 0.0, 0.0, false)], map[], map[], map[], map[], []), {}, map[], {}, {}, {}, {})
  }

  predicate Affordable(cash: real, dto: PlaceOrderDto) {
    && dto.userId == 5 && dto.portfolioId == 1 && dto.symbol == INFY && dto.side.BUY?
    && dto.quantity > 0.0 && !LacksPrice(dto) && CashToReserve(dto) <= cash
  }

  function Pending(dto: PlaceOrderDto): Order {
    NewOrder(dto, 7).(status := PENDING)
  }

  function PendingDb(cash: real, dto: PlaceOrderDto): Db {
    Db(map[1 := Portfolio(5, cash, CashToReserve(dto), 0.0, false)], map[], map[7 := Pending(dto)],
       map[(5, dto.key) := 7], map[], [])
  }

  function OneEntry(entry: EngineOrder): map<nat, Engine> {
    map[1 := Engine({INFY}, map[INFY := map[7 := entry]])]
  }

  function Watched(cash: real, dto: PlaceOrderDto): Sys {
    Sys(PendingDb(cash, dto), {Pending(dto)}, OneEntry(EngineOrder(Pending(dto), READY, 0.0)), {}, {}, {}, {})
  }

  lemma ReachMore(s: Sys, steps: seq<Step>, step: Step)
    ensures Reach(s, steps + [step]) == Next(Reach(s, steps), step)
  {
    hide Next;
    assert (steps + [step])[..|steps|] == steps;
  }

  lemma PlacedPending(cash: real, dto: PlaceOrderDto)
    requires Affordable(cash, dto)
    ensures Reach(OneAccount(cash), [Service(PlaceOrder(dto, 7, true)), Service(MarkOrderPending(7, true, true))])
         == OneAccount(cash).(db := PendingDb(cash, dto))
  {
    hide CashToReserve, LacksPrice, ReservationPrice;
    var s, place, mark := OneAccount(cash), Service(PlaceOrder(dto, 7, true)), Service(MarkOrderPending(7, true, true));
    ReachMore(s, [], place);
    ReachMore(s, [place], mark);
    var placed := Placed(s.db, dto, 7);
    assert Next(s, place) == s.(db := placed);
    assert placed.orders[7] == NewOrder(dto, 7);
    assert Next(s.(db := placed), mark).db == placed.(orders := placed.orders[7 := Pending(dto)]);
    assert placed.orders[7 := Pending(dto)] == map[7 := Pending(dto)];
    assert placed.portfolios == map[1 := Portfolio(5, cash, CashToReserve(dto), 0.0, false)];
  }

  /** An order placed, routed, read and taken in by an engine. */
  lemma PlacedAndWatched(cash: real, dto: PlaceOrderDto) returns (steps: seq<Step>)
    requires Affordable(cash, dto)
    ensures Reach(OneAccount(cash), steps) == Watched(cash, dto)
  {
    hide CashToReserve, LacksPrice, ReservationPrice, Reach, PendingDb;
    var s := OneAccount(cash);
    PlacedPending(cash, dto);
    steps := [Service(PlaceOrder(dto, 7, true)), Service(MarkOrderPending(7, true, true))];
    ReachMore(s, steps, ReadRow(7));
    RowRead(cash, dto);
    steps := steps + [ReadRow(7)];
    ReachMore(s, steps, Start(1, {INFY}));
    steps := steps + [Start(1, {INFY})];
    ReachMore(s, steps, Deliver(1, Pending(dto)));
    TakenIn(Pending(dto));
    steps := steps + [Deliver(1, Pending(dto))];
  }

  lemma RowRead(cash: real, dto: PlaceOrderDto)
    requires Affordable(cash, dto)
    ensures 7 in PendingDb(cash, dto).orders && PendingDb(cash, dto).orders[7] == Pending(dto)
    ensures Watchable(Pending(dto))
  {}

  lemma TakenIn(o: Order)
    requires o.id == 7 && o.symbol == INFY && o.filled == 0.0
    ensures map[1 := AddOrder(Engine({INFY}, map[]), o)] == OneEntry(EngineOrder(o, READY, 0.0))
  {}

  // ---- one tick for the one entry ---------------------------------------------------------------

  /** A tick arrives and the entry meets it. */
  lemma TickMet(s: Sys, steps: seq<Step>, now: Sys, entry: EngineOrder, tick: real)
    requires Reach(s, steps) == now && now.engines == OneEntry(entry)
    ensures var out := EvaluateEntry(entry, tick);
            out.entry.Some? ==>
              Reach(s, steps + [Tick(INFY, tick), Observe(1, 7, INFY, tick)])
                == now.(ticks := now.ticks + {(INFY, tick)}, engines := OneEntry(out.entry.value),
                        jobs := now.jobs + JobSet(out.job),
                        activations := now.activations + (if out.activate then {Activation(entry.order, tick)} else {}))
  {
    hide Reach, EvaluateEntry;
    ReachMore(s, steps, Tick(INFY, tick));
    ReachMore(s, steps + [Tick(INFY, tick)], Observe(1, 7, INFY, tick));
    assert steps + [Tick(INFY, tick)] + [Observe(1, 7, INFY, tick)] == steps
      + [Tick(INFY, tick), Observe(1, 7, INFY, tick)];
    EntryReplaced(entry, EvaluateEntry(entry, tick).entry);
  }

  lemma EntryReplaced(entry: EngineOrder, next: Option<EngineOrder>)
    ensures var e := OneEntry(entry)[1];
            && OneEntry(entry).Keys == {1} && e.owned == {INFY} && BookOf(e, INFY) == map[7 := entry]
            && (next.Some? ==> OneEntry(entry)[1 := WithEntry(e, INFY, 7, next)] == OneEntry(next.value))
  {
    if next.Some? {
      assert map[7 := entry][7 := next.value] == map[7 := next.value];
      assert map[INFY := map[7 := entry]][INFY := map[7 := next.value]] == map[INFY := map[7 := next.value]];
    }
  }

  // ---- a market buy can overdraw its account ----------------------------------------------------

  /** One share at the market, quoted at 100: reserved at 105, all the account has. */
  function MarketDto(): PlaceOrderDto {
    PlaceOrderDto(5, 1, INFY, BUY, MARKET, 1.0, None, None, 100.0, Client("k"))
  }

  /** The tick that follows makes the executable price 120. */
  lemma MarketJob()
    ensures Affordable(105.0, MarketDto()) && CashToReserve(MarketDto()) == 105.0
    ensures EvaluateEntry(EngineOrder(Pending(MarketDto()), READY, 0.0), 119.975)
         == Outcome(Some(EngineOrder(Pending(MarketDto()), QUEUED, 1.0)), Some(Job(7, 120.0, 1.0, 1.0)), false)
  {
    assert ExecPrice(BUY, INFY, 119.975, 0.0) == 120.0;
  }

  lemma BuyApplies(db: Db, o: Order, dto: FillOrderDto)
    requires dto.orderId in db.orders && db.orders[dto.orderId] == o && o.side.BUY? && o.portfolioId in db.portfolios
    requires 0.0 < dto.quantity <= Remaining(o) && Fillable(o.status)
    requires FillKey(o.id, dto.execution) !in db.fills && Cost(dto) >= 0.0
    ensures ProcessFill(db, dto) == (Filled(db, o, dto), Ok(AfterFill(o, dto.quantity)))
  {
    hide Cost, Filled, AfterFill;
  }

  /** The one job of such a system fills the order. */
  lemma FirstFill(cash: real, dto: PlaceOrderDto, fill: FillOrderDto)
    requires Affordable(cash, dto) && fill.orderId == 7 && 0.0 < fill.quantity <= dto.quantity && Cost(fill) >= 0.0
    ensures ProcessFill(PendingDb(cash, dto), fill).0 == Filled(PendingDb(cash, dto), Pending(dto), fill)
    ensures var db := Filled(PendingDb(cash, dto), Pending(dto), fill);
            && db.orders == map[7 := AfterFill(Pending(dto), fill.quantity)]
            && db.portfolios == map[1 := PortfolioFilled(PendingDb(cash, dto).portfolios[1], Pending(dto), fill)]
  {
    hide Cost, CashToReserve, ReservationPrice, LacksPrice, ProcessFill, Traded, Realized, PortfolioFilled;
    BuyApplies(PendingDb(cash, dto), Pending(dto), fill);
  }

  /** What the market order's fill does to the account. */
  lemma MarketFill()
    ensures Cost(FillOrderDto(7, 120.0, 1.0, 1.0)) == 120.0
    ensures PortfolioFilled(Portfolio(5, 105.0, 105.0, 0.0, false), Pending(MarketDto()),
                            FillOrderDto(7, 120.0, 1.0, 1.0))
         == Portfolio(5, -15.0, 0.0, 0.0, false)
  {
    assert ReservationPrice(MarketDto()) == 105.0;
  }

  /** For a MARKET buy the 5% buffer is no promise: an account of 105 buys one share quoted at 100, all of it is
      locked, the market moves to 119.975, and the fill at 120 leaves the account with -15. */
  lemma MarketBuyCanOverdraw() returns (s: Sys, steps: seq<Step>)
    ensures Fresh(s) && IsCash(s.db, 1) && s.db.portfolios[1].totalCash == 105.0
    ensures IsCash(Reach(s, steps).db, 1) && Reach(s, steps).db.portfolios[1].totalCash == -15.0
  {
    hide Reach, PendingDb, EvaluateEntry, CashToReserve, PortfolioFilled, Cost, ProcessFill, Filled, Affordable;
    s := OneAccount(105.0);
    MarketJob();
    MarketFill();
    var dto, job := MarketDto(), Job(7, 120.0, 1.0, 1.0);
    steps := PlacedAndWatched(105.0, dto);
    TickMet(s, steps, Watched(105.0, dto), EngineOrder(Pending(dto), READY, 0.0), 119.975);
    steps := steps + [Tick(INFY, 119.975), Observe(1, 7, INFY, 119.975)];
    ReachMore(s, steps, DeliverJob(job));
    assert job in Reach(s, steps).jobs;
    FirstFill(105.0, dto, DtoOf(job));
    LockedAll();
    steps := steps + [DeliverJob(job)];
  }

  lemma LockedAll()
    ensures PendingDb(105.0, MarketDto()).portfolios[1] == Portfolio(5, 105.0, 105.0, 0.0, false)
  {
    MarketJob();
  }

  // ---- the same execution, sent twice ------------------------------------------------------------

  /** Two slices of a stop-limit order. */
  function StopLimitDto(): PlaceOrderDto {
    PlaceOrderDto(5, 1, INFY, BUY, STOP_LIMIT, 2000.0, Some(100.5), Some(100.0), 100.0, Client("k"))
  }

  function Armed(): Order {
    Pending(StopLimitDto()).(isActivated := true)
  }

  const FIRST_SLICE: Job := Job(7, 100.025, 1000.0, 1000.0)

  /** Armed by a first tick, dispatched by a second one at 100, while the activation is still under way. */
  lemma ArmedThenSent(first: real, expected: real)
    requires first >= 100.0
    ensures Affordable(201000.0, StopLimitDto())
    ensures EvaluateEntry(EngineOrder(Pending(StopLimitDto()), READY, 0.0), first)
         == Outcome(Some(EngineOrder(Armed(), READY, 0.0)), None, true)
    ensures EvaluateEntry(EngineOrder(Armed(), READY, expected), 100.0)
         == Outcome(Some(EngineOrder(Armed(), QUEUED, 1000.0)), Some(FIRST_SLICE), false)
  {
    assert ExecPrice(BUY, INFY, 100.0, 0.0) == 100.025;
  }

  /** The activation commits after both ticks. */
  function BothTicks(first: real, db: Db, resumptions: set<Resumption>): Sys {
    Sys(db, {Pending(StopLimitDto())}, OneEntry(EngineOrder(Armed(), QUEUED, 1000.0)),
        {Activation(Pending(StopLimitDto()), first)}, resumptions, {FIRST_SLICE}, {(INFY, first), (INFY, 100.0)})
  }

  function ActivatedDb(): Db {
    PendingDb(201000.0, StopLimitDto()).(orders := map[7 := Armed()])
  }

  function Late(first: real): Resumption {
    Resumption(Pending(StopLimitDto()), Armed(), first)
  }

  lemma ActivationCommits()
    ensures OrderSpec.Activate(PendingDb(201000.0, StopLimitDto()), 7) == (ActivatedDb(), Ok(Armed()))
  {
    hide CashToReserve, ReservationPrice;
    assert map[7 := Pending(StopLimitDto())][7 := Armed()] == map[7 := Armed()];
  }

  lemma SentBeforeResumption(first: real) returns (steps: seq<Step>)
    requires first >= 100.0
    ensures Reach(OneAccount(201000.0), steps) == BothTicks(first, ActivatedDb(), {Late(first)})
  {
    hide Reach, PendingDb, EvaluateEntry, CashToReserve, Affordable, ActivatedDb, OrderSpec.Activate;
    ArmedThenSent(first, 0.0);
    var s, dto := OneAccount(201000.0), StopLimitDto();
    var ready, armed := EngineOrder(Pending(dto), READY, 0.0), EngineOrder(Armed(), READY, 0.0);
    steps := PlacedAndWatched(201000.0, dto);
    var now := Watched(201000.0, dto);
    TickMet(s, steps, now, ready, first);
    steps := steps + [Tick(INFY, first), Observe(1, 7, INFY, first)];
    now := now.(ticks := {(INFY, first)}, engines := OneEntry(armed), activations := {Activation(Pending(dto), first)});
    assert Reach(s, steps) == now;
    TickMet(s, steps, now, armed, 100.0);
    steps := steps + [Tick(INFY, 100.0), Observe(1, 7, INFY, 100.0)];
    now := BothTicks(first, now.db, {});
    assert Reach(s, steps) == now;
    ReachMore(s, steps, RunActivation(Activation(Pending(dto), first)));
    ActivationCommits();
    steps := steps + [RunActivation(Activation(Pending(dto), first))];
  }

  /** The entry is queued for its first slice when the activation's own evaluation goes on, and sends that slice
      again. */
  lemma ResumptionRepeats() returns (s: Sys, steps: seq<Step>, step: Step)
    ensures Fresh(s) && step.Resume? && Dispatched(Reach(s, steps), step).Some?
    ensures var d := Dispatched(Reach(s, steps), step).value;
            d.job in Reach(s, steps).jobs && d.entry.state.QUEUED? && d.job.execution == d.entry.expected > d.row.filled
  {
    hide Reach, ActivatedDb;
    s := OneAccount(201000.0);
    steps := SentBeforeResumption(100.0);
    step := Resume(1, Late(100.0), true);
    assert ExecPrice(BUY, INFY, 100.0, 0.0) == 100.025;
    var e := OneEntry(EngineOrder(Armed(), QUEUED, 1000.0))[1];
    assert BookOf(e, INFY)[7] == EngineOrder(Armed(), QUEUED, 1000.0);
    assert ResumeEntry(EngineOrder(Armed(), QUEUED, 1000.0), Pending(StopLimitDto()), Armed(), 100.0).job
      == Some(FIRST_SLICE);
  }

  // ---- an entry set back ----------------------------------------------------------------------------

  function Half(): Order {
    AfterFill(Armed(), 1000.0)
  }

  /** A job for the only order of a database. */
  lemma OnlyOrderFilled(db: Db, o: Order, dto: FillOrderDto)
    requires db.orders == map[7 := o] && o.id == dto.orderId == 7 && o.side.BUY? && o.portfolioId in db.portfolios
    requires 0.0 < dto.quantity <= Remaining(o) && Fillable(o.status) && db.fills == map[] && Cost(dto) >= 0.0
    ensures var db' := ProcessFill(db, dto).0;
            db'.orders == map[7 := AfterFill(o, dto.quantity)] && FillKey(7, dto.execution) in db'.fills
  {
    hide Cost, PositionFilled, PortfolioFilled, FillEntries, ProcessFill, AfterFill, Realized;
    BuyApplies(db, o, dto);
  }

  lemma ArmedCanFill()
    ensures var o := Armed();
            o.id == 7 && o.side.BUY? && o.portfolioId == 1 && Remaining(o) == 2000.0 && Fillable(o.status)
    ensures Watchable(Half()) && Half().filled == 1000.0 && Half().id == 7 && Half().symbol == INFY
  {
    hide ReservationPrice;
    HalfIsLeft(Armed());
  }

  lemma HalfIsLeft(o: Order)
    requires o.requested == 2000.0 && o.filled == 0.0
    ensures AfterFill(o, 1000.0) == o.(filled := 1000.0, status := PARTIALLY_FILLED)
    ensures Watchable(AfterFill(o, 1000.0))
  {}

  /** The first slice is filled. */
  lemma FirstSliceFills(db: Db)
    requires db == ActivatedDb()
    ensures var db' := ProcessFill(db, DtoOf(FIRST_SLICE)).0;
            && db'.orders == map[7 := Half()] && Watchable(Half()) && Half().filled == 1000.0
            && FillKey(7, 1000.0) in db'.fills
  {
    hide Cost, ProcessFill, CashToReserve, ReservationPrice, AfterFill, Remaining;
    FirstSliceCost();
    ArmedCanFill();
    OnlyOrderFilled(db, Armed(), DtoOf(FIRST_SLICE));
  }

  lemma FirstSliceCost()
    ensures Cost(DtoOf(FIRST_SLICE)) == 100025.0
  {}

  lemma CaughtUp()
    ensures map[1 := AddOrder(OneEntry(EngineOrder(Armed(), QUEUED, 1000.0))[1], Half())]
         == OneEntry(EngineOrder(Half(), READY, 1000.0))
  {
    hide CashToReserve, ReservationPrice;
    var book := map[7 := EngineOrder(Armed(), QUEUED, 1000.0)];
    assert book[7 := EngineOrder(Half(), READY, 1000.0)] == map[7 := EngineOrder(Half(), READY, 1000.0)];
    assert map[INFY := book][INFY := map[7 := EngineOrder(Half(), READY, 1000.0)]]
        == map[INFY := map[7 := EngineOrder(Half(), READY, 1000.0)]];
  }

  function AfterFirstSlice(db: Db): Sys {
    BothTicks(101.0, db, {Late(101.0)}).(rows := {Pending(StopLimitDto()), Half()},
                                         engines := OneEntry(EngineOrder(Half(), READY, 1000.0)))
  }

  /** The slice is delivered, filled, and the entry has caught up; the activation's evaluation is still to come. */
  lemma FilledBeforeResumption() returns (steps: seq<Step>, db: Db)
    ensures Reach(OneAccount(201000.0), steps) == AfterFirstSlice(db) && FillKey(7, 1000.0) in db.fills
  {
    hide Reach, ActivatedDb, ProcessFill, AddOrder, AfterFill, Watchable;
    var s := OneAccount(201000.0);
    steps := SentBeforeResumption(101.0);
    FirstSliceFills(ActivatedDb());
    db := ProcessFill(ActivatedDb(), DtoOf(FIRST_SLICE)).0;
    ReachMore(s, steps, DeliverJob(FIRST_SLICE));
    steps := steps + [DeliverJob(FIRST_SLICE)];
    ReachMore(s, steps, ReadRow(7));
    steps := steps + [ReadRow(7)];
    ReachMore(s, steps, Deliver(1, Half()));
    CaughtUp();
    steps := steps + [Deliver(1, Half())];
  }

  /** Outside the limit: the entry is put back to the activated row, expecting what was filled long ago. */
  lemma LateIsOutside()
    ensures !WithinLimit(Pending(StopLimitDto()), PriceNow(Pending(StopLimitDto()), 101.0))
    ensures ResumeEntry(EngineOrder(Half(), READY, 1000.0), Pending(StopLimitDto()), Armed(), 101.0)
         == Outcome(Some(EngineOrder(Armed(), READY, 1000.0)), None, false)
  {
    assert ExecPrice(BUY, INFY, 101.0, 0.0) == 101.025;
  }

  /** A resumption that comes too late sets the entry back, and the next tick sends the filled slice again. */
  lemma SetBackRepeats() returns (s: Sys, steps: seq<Step>, back: Step, again: Step)
    ensures Fresh(s) && SetsBack(Reach(s, steps), back)
    ensures again.Observe? && Dispatched(Reach(s, steps + [back]), again).Some?
    ensures var now := Reach(s, steps + [back]);
            var d := Dispatched(now, again).value;
            && d.job in now.jobs && FillKey(d.job.orderId, d.job.execution) in now.db.fills
            && d.entry.state.READY? && d.job.execution == d.entry.expected > d.row.filled
  {
    hide Reach, ActivatedDb, ResumeEntry, EvaluateEntry, WithinLimit, PriceNow;
    var db: Db;
    s := OneAccount(201000.0);
    steps, db := FilledBeforeResumption();
    back, again := Resume(1, Late(101.0), true), Observe(1, 7, INFY, 100.0);
    LateIsOutside();
    ArmedThenSent(101.0, 1000.0);
    EntryReplaced(EngineOrder(Half(), READY, 1000.0), Some(EngineOrder(Armed(), READY, 1000.0)));
    EntryReplaced(EngineOrder(Armed(), READY, 1000.0), None);
    ReachMore(s, steps, back);
  }
}
