/** The order pipeline as one machine: service calls, row reads that go stale, engines that come and go,
    ticks, activations, and jobs that may be delivered late, twice or never, in any order. */
module System {
  import opened Prelude
  import opened Liquidity
  import opened Domain
  import opened OrderSpec
  import opened Actions
  import opened EngineSpec

  /** An activation under way: the snapshot the tick met, and the tick. */
  datatype Activation = Activation(met: Order, tick: real)

  /** A committed activation whose caller has not continued yet. */
  datatype Resumption = Resumption(met: Order, activated: Order, tick: real)

  datatype Sys = Sys(
    db: Db,
    rows: set<Order>,                 // rows read at some time and not yet handled
    engines: map<nat, Engine>,
    activations: set<Activation>,
    resumptions: set<Resumption>,
    jobs: set<Job>,                   // every job ever queued: any of them may be delivered again
    ticks: set<(Symbol, real)>)       // every price ever observed

  datatype Step =
    | Service(action: Action)
    | Tick(symbol: Symbol, price: real)
    | ReadRow(id: Id)
    | Start(engine: nat, owned: set<Symbol>)
    | Lose(engine: nat, symbol: Symbol)
    | Deliver(engine: nat, row: Order)
    | Evict(engine: nat, id: Id, symbol: Symbol)
    | Observe(engine: nat, id: Id, symbol: Symbol, tick: real)
    | RunActivation(activation: Activation)
    | FailActivation(engine: nat, id: Id, symbol: Symbol)
    | Resume(engine: nat, resumption: Resumption, attached: bool)
    | DeliverJob(job: Job)

  function DtoOf(j: Job): FillOrderDto {
    FillOrderDto(j.orderId, j.price, j.quantity, j.execution)
  }

  /** Rows a reader passes on to an engine. */
  predicate Watchable(o: Order) {
    Fillable(o.status) && Remaining(o) > 0.0
  }

  function JobSet(job: Option<Job>): set<Job> {
    match job case None => {} case Some(j) => {j}
  }

  /** One entry of one engine is replaced, and what came out of it is sent. */
  function Apply(s: Sys, engine: nat, symbol: Symbol, id: Id, out: Outcome): Sys
    requires engine in s.engines
  {
    s.(engines := s.engines[engine := WithEntry(s.engines[engine], symbol, id, out.entry)],
       jobs := s.jobs + JobSet(out.job))
  }

  predicate HasEntry(s: Sys, engine: nat, symbol: Symbol, id: Id) {
    engine in s.engines && symbol in s.engines[engine].owned && id in BookOf(s.engines[engine], symbol)
  }

  /** A step whose guard fails does not happen: the state stays. */
  ghost function Next(s: Sys, step: Step): Sys {
    match step
    case Service(a) => if a.Fill? || a.ActivateStopLimit? then s else s.(db := Act(s.db, a))
    case Tick(symbol, price) => s.(ticks := s.ticks + {(symbol, price)})
    case ReadRow(id) =>
      if id in s.db.orders && Watchable(s.db.orders[id]) then s.(rows := s.rows + {s.db.orders[id]}) else s
    case Start(e, owned) => s.(engines := s.engines[e := Engine(owned, map[])])
    case Lose(e, symbol) =>
      if e in s.engines then s.(engines := s.engines[e := LoseLease(s.engines[e], symbol)]) else s
    case Deliver(e, row) =>
      if e in s.engines && row in s.rows then s.(engines := s.engines[e := AddOrder(s.engines[e], row)]) else s
    case Evict(e, id, symbol) =>
      if e in s.engines then s.(engines := s.engines[e := RemoveOrder(s.engines[e], id, symbol)]) else s
    case Observe(e, id, symbol, tick) =>
      if HasEntry(s, e, symbol, id) && (symbol, tick) in s.ticks then
        var entry := BookOf(s.engines[e], symbol)[id];
        var out := EvaluateEntry(entry, tick);
        var asked := if out.activate then {Activation(entry.order, tick)} else {};
        Apply(s, e, symbol, id, out).(activations := s.activations + asked)
      else s
    case RunActivation(a) =>
      if a in s.activations then
        var (db', reply) := Activate(s.db, a.met.id);
        if reply.Ok? then s.(db := db', resumptions := s.resumptions + {Resumption(a.met, reply.value, a.tick)}) else s
      else s
    case FailActivation(e, id, symbol) =>
      if HasEntry(s, e, symbol, id) then
        var entry := BookOf(s.engines[e], symbol)[id];
        Apply(s, e, symbol, id, Outcome(Some(entry.(order := entry.order.(isActivated := false))), None, false))
      else s
    case Resume(e, r, attached) =>
      if r in s.resumptions && e in s.engines && r.met.symbol in s.engines[e].owned then
        if attached && r.met.id in BookOf(s.engines[e], r.met.symbol) then
          var entry := BookOf(s.engines[e], r.met.symbol)[r.met.id];
          Apply(s, e, r.met.symbol, r.met.id, ResumeEntry(entry, r.met, r.activated, r.tick))
        else
          var entry := EngineOrder(r.met, READY, r.met.filled);
          s.(jobs := s.jobs + JobSet(ResumeEntry(entry, r.met, r.activated, r.tick).job))
      else s
    case DeliverJob(j) => if j in s.jobs then s.(db := ProcessFill(s.db, DtoOf(j)).0) else s
  }

  ghost function Reach(s: Sys, steps: seq<Step>): Sys {
    if steps == [] then s else Next(Reach(s, steps[..|steps| - 1]), steps[|steps| - 1])
  }

  lemma {:induction false} ReachFurther(s: Sys, steps: seq<Step>, more: seq<Step>)
    ensures Reach(s, steps + more) == Reach(Reach(s, steps), more)
  {
    hide Next;
    if more == [] {
      assert steps + more == steps;
    } else {
      ReachFurther(s, steps, more[..|more| - 1]);
      assert (steps + more)[..|steps + more| - 1] == steps + more[..|more| - 1];
    }
  }

  /** A fresh system over a database without orders. */
  ghost predicate Fresh(s: Sys) {
    Initial(s.db) && s.rows == {} && s.engines == map[] && s.activations == {} && s.resumptions == {} && s.jobs == {}
      && s.ticks == {}
  }
}
