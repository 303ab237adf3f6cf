/** The trading engine's memory: the symbols it holds a lease on and, per symbol, the orders it watches.
    Every entry is a snapshot of an order row, which the database may have left behind meanwhile. */
module EngineSpec {
  import opened Prelude
  import opened Liquidity
  import opened Domain
  import opened OrderSpec

  datatype EngineOrderState = READY | QUEUED

  datatype EngineOrder = EngineOrder(order: Order, state: EngineOrderState, expected: real)

  type Book = map<Id, EngineOrder>

  datatype Engine = Engine(owned: set<Symbol>, books: map<Symbol, Book>)

  /** An EXECUTE_FILL job; execution is the cumulative quantity its idempotency key names. */
  datatype Job = Job(orderId: Id, price: real, quantity: real, execution: real)

  function BookOf(e: Engine, symbol: Symbol): Book {
    if symbol in e.books then e.books[symbol] else map[]
  }

  /** A tick at or beyond the stop price. */
  predicate Crosses(o: Order, price: real) {
    o.stopPrice.Some? && (if o.side.BUY? then price >= o.stopPrice.value else price <= o.stopPrice.value)
  }

  predicate WithinLimit(o: Order, price: real) {
    o.limitPrice.Some? && (if o.side.BUY? then price <= o.limitPrice.value else price >= o.limitPrice.value)
  }

  function PriceNow(o: Order, tick: real): real {
    ExecPrice(o.side, o.symbol, tick, o.filled)
  }

  datatype Decision = Wait | Execute | Arm

  /** What a tick means to a snapshot: stops look at the raw tick, limits at the executable price. */
  function Decide(o: Order, tick: real): Decision {
    match o.kind
    case STOP => if Crosses(o, tick) then Execute else Wait
    case STOP_LIMIT =>
      if !o.isActivated then (if Crosses(o, tick) then Arm else Wait)
      else if WithinLimit(o, PriceNow(o, tick)) then Execute else Wait
    case LIMIT => if WithinLimit(o, PriceNow(o, tick)) then Execute else Wait
    case MARKET => Execute
  }

  /** The next slice of a snapshot: what remains, at most one level's depth. */
  function NextSlice(o: Order): real {
    Min(Remaining(o), Depth(o.symbol))
  }

  function JobFor(o: Order, tick: real): Job {
    Job(o.id, PriceNow(o, tick), NextSlice(o), o.filled + NextSlice(o))
  }

  /** What becomes of an entry, and what is sent out. */
  datatype Outcome = Outcome(entry: Option<EngineOrder>, job: Option<Job>, activate: bool)

  function Trigger(entry: EngineOrder, tick: real): Outcome {
    var o := entry.order;
    if Remaining(o) <= 0.0 then Outcome(None, None, false)
    else Outcome(Some(entry.(state := QUEUED, expected := o.filled + NextSlice(o))), Some(JobFor(o, tick)), false)
  }

  /** One order of a book at one tick; a queued entry waits for its job. */
  function EvaluateEntry(entry: EngineOrder, tick: real): Outcome {
    if entry.state.QUEUED? then Outcome(Some(entry), None, false)
    else match Decide(entry.order, tick)
      case Wait => Outcome(Some(entry), None, false)
      case Execute => Trigger(entry, tick)
      case Arm => Outcome(Some(entry.(order := entry.order.(isActivated := true))), None, true)
  }

  /** After the activation was committed: the limit is checked against the snapshot the tick met, the job is
      built from the row the activation returned. */
  function ResumeEntry(entry: EngineOrder, met: Order, activated: Order, tick: real): Outcome {
    var now := entry.(order := activated);
    if WithinLimit(met, PriceNow(met, tick)) then Trigger(now, tick) else Outcome(Some(now), None, false)
  }

  function WithBook(e: Engine, symbol: Symbol, book: Book): Engine {
    e.(books := e.books[symbol := book])
  }

  function WithEntry(e: Engine, symbol: Symbol, id: Id, entry: Option<EngineOrder>): Engine {
    WithBook(e, symbol, match entry case Some(x) => BookOf(e, symbol)[id := x] case None => BookOf(e, symbol) - {id})
  }

  /** A queued entry is only refreshed by a snapshot that has caught up with the dispatched quantity. */
  function AddOrder(e: Engine, o: Order): Engine {
    if o.symbol !in e.owned then e
    else
      var book := BookOf(e, o.symbol);
      if o.id in book && book[o.id].state.QUEUED? then
        if o.filled < book[o.id].expected then e
        else WithBook(e, o.symbol, book[o.id := book[o.id].(order := o, state := READY)])
      else WithBook(e, o.symbol, book[o.id := EngineOrder(o, READY, o.filled)])
  }

  function RemoveOrder(e: Engine, id: Id, symbol: Symbol): Engine {
    if symbol in e.books then WithBook(e, symbol, e.books[symbol] - {id}) else e
  }

  function LoseLease(e: Engine, symbol: Symbol): Engine {
    Engine(e.owned - {symbol}, e.books - {symbol})
  }

  // ---- a queued entry ------------------------------------------------------------------------

  /** expected is what the entry's last dispatch would reach; a READY entry has reached it. */
  predicate Sound(entry: EngineOrder) {
    if entry.state.READY? then entry.expected <= entry.order.filled else entry.expected > entry.order.filled
  }

  /** A tick that dispatches a sound entry reaches further than the entry's last dispatch, and nothing is dispatched
      while it waits. A resumption can do otherwise: module Dispatch says exactly when. */
  lemma SoundTickAdvances(entry: EngineOrder, tick: real)
    requires Sound(entry)
    ensures var out := EvaluateEntry(entry, tick);
            && (out.entry.Some? ==> Sound(out.entry.value) && out.entry.value.expected >= entry.expected)
            && (out.job.Some? ==>
                  && entry.state.READY? && out.entry.Some?
                  && out.job.value.execution == out.entry.value.expected > entry.expected)
  {
    hide ExecPrice;
  }

  /** An arriving row leaves an entry that is sound, or the queued entry as it was when it is too old for that. It
      takes the entry back behind its last dispatch exactly when the entry was READY and the row is older than that. */
  lemma RowNeverStepsBack(e: Engine, o: Order)
    requires o.symbol in e.owned && o.id in BookOf(e, o.symbol)
    ensures o.id in BookOf(AddOrder(e, o), o.symbol)
    ensures var entry, entry' := BookOf(e, o.symbol)[o.id], BookOf(AddOrder(e, o), o.symbol)[o.id];
            && (if entry.state.QUEUED? && o.filled < entry.expected then entry' == entry
                else Sound(entry') && entry'.state.READY? && entry'.order == o)
            && (entry'.expected < entry.expected <==> entry.state.READY? && o.filled < entry.expected)
  {}
}
