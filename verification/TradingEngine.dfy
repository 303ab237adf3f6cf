/** One engine process: its mutable books, the jobs it has queued and the activations it has asked for. */
module TradingEngines {
  import opened Prelude
  import opened Liquidity
  import opened Domain
  import opened OrderSpec
  import opened EngineSpec

  /** Every entry of a book watches the order it is filed under. */
  ghost predicate Filed(book: Book, symbol: Symbol) {
    forall id | id in book :: book[id].order.id == id && book[id].order.symbol == symbol
  }

  ghost predicate AllFiled(e: Engine) {
    forall symbol | symbol in e.books :: Filed(e.books[symbol], symbol)
  }

  /** A book after every one of its entries met the tick. */
  function TickBook(book: Book, tick: real): Book {
    map id | id in book && EvaluateEntry(book[id], tick).entry.Some? :: EvaluateEntry(book[id], tick).entry.value
  }

  /** The jobs these entries send out at a tick. */
  ghost predicate TickJob(book: Book, ids: set<Id>, tick: real, j: Job) {
    exists id :: id in ids && id in book && EvaluateEntry(book[id], tick).job == Some(j)
  }

  /** The activations they ask for: the snapshot the tick met, and the tick. */
  ghost predicate TickRequest(book: Book, ids: set<Id>, tick: real, q: (Order, real)) {
    exists id :: id in ids && id in book && EvaluateEntry(book[id], tick).activate && q == (book[id].order, tick)
  }

  /** These entries sent exactly these jobs and requests, at most one of either kind for an order. */
  ghost predicate SentFor(book: Book, ids: set<Id>, tick: real, sent: seq<Job>, asked: seq<(Order, real)>) {
    && (forall j :: j in sent <==> TickJob(book, ids, tick, j))
    && (forall a, b | 0 <= a < b < |sent| :: sent[a].orderId != sent[b].orderId)
    && (forall q :: q in asked <==> TickRequest(book, ids, tick, q))
    && (forall a, b | 0 <= a < b < |asked| :: asked[a].0.id != asked[b].0.id)
  }

  /** What the queues gained is what the book sent at the tick. */
  ghost predicate TickSent(book: Book, tick: real, queue: seq<Job>, queue': seq<Job>,
                           requests: seq<(Order, real)>, requests': seq<(Order, real)>)
  {
    && queue <= queue' && requests <= requests'
    && SentFor(book, book.Keys, tick, queue'[|queue|..], requests'[|requests|..])
  }

  /** A book after reconciliation with the rows found: ghosts gone, orphans taken in, known entries kept. */
  function ReconciledBook(book: Book, rows: map<Id, Order>, symbol: Symbol): Book {
    map id | id in rows && (id in book || (rows[id].symbol == symbol && Remaining(rows[id]) > 0.0)) ::
      if id in book then book[id] else EngineOrder(rows[id], READY, rows[id].filled)
  }

  /** The first half of it: orphans of some rows taken in. */
  function WithOrphans(book: Book, rows: map<Id, Order>, seen: set<Id>, symbol: Symbol): Book {
    map id | id in book.Keys + seen
      && (id in book || (id in rows && rows[id].symbol == symbol && Remaining(rows[id]) > 0.0)) ::
      if id in book then book[id] else EngineOrder(rows[id], READY, rows[id].filled)
  }

  class TradingEngine {
    var ownedSymbols: set<Symbol>
    var orders: map<Symbol, Book>
    var executionQueue: seq<Job>
    var activationRequests: seq<(Order, real)>

    constructor (owned: set<Symbol>)
      ensures State() == Engine(owned, map[]) && executionQueue == [] && activationRequests == []
    {
      ownedSymbols, orders, executionQueue, activationRequests := owned, map[], [], [];
    }

    function State(): Engine
      reads this
    {
      Engine(ownedSymbols, orders)
    }

    method AddOrder(o: Order)
      modifies this`orders
      ensures State() == EngineSpec.AddOrder(old(State()), o)
    {
      if o.symbol !in ownedSymbols { return; }
      var book := if o.symbol in orders then orders[o.symbol] else map[];
      if o.id in book && book[o.id].state.QUEUED? {
        var existing := book[o.id];
        if o.filled < existing.expected { return; }
        orders := orders[o.symbol := book[o.id := existing.(order := o, state := READY)]];
        return;
      }
      orders := orders[o.symbol := book[o.id := EngineOrder(o, READY, o.filled)]];
    }

    method RemoveOrder(id: Id, symbol: Symbol)
      modifies this`orders
      ensures State() == EngineSpec.RemoveOrder(old(State()), id, symbol)
    {
      if symbol in orders { orders := orders[symbol := orders[symbol] - {id}]; }
    }

    /** Nothing of the symbol is watched any more, and nothing else changes. */
    method HandleLeaseLoss(symbol: Symbol)
      modifies this`ownedSymbols, this`orders
      ensures State() == LoseLease(old(State()), symbol)
      ensures BookOf(State(), symbol) == map[] && forall o: Order | o.symbol == symbol ::
        EngineSpec.AddOrder(State(), o) == State()
      ensures forall other | other != symbol ::
        BookOf(State(), other) == old(BookOf(State(), other)) && (other in ownedSymbols <==> other in old(ownedSymbols))
    {
      ownedSymbols := ownedSymbols - {symbol};
      orders := orders - {symbol};
    }

    /** Dispatches the next slice and queues the entry, or drops an order with nothing left. The entry need not be
        in its book any more: then only the job shows. */
    method TriggerExecution(entry: EngineOrder, attached: bool, tick: real)
      requires attached ==> InBook(State(), entry)
      modifies this`orders, this`executionQueue
      ensures entry.order.symbol !in ownedSymbols ==> State() == old(State()) && executionQueue == old(executionQueue)
      ensures entry.order.symbol in ownedSymbols ==>
        && State() == Settled(old(State()), entry.order, attached, Trigger(entry, tick))
        && executionQueue == old(executionQueue) + JobsOf(Trigger(entry, tick))
    {
      hide CalculateExecutablePrice;
      var o := entry.order;
      if o.symbol !in ownedSymbols { return; }
      var remaining := o.requested - o.filled;
      if remaining <= 0.0 {
        RemoveOrder(o.id, o.symbol);
        return;
      }
      var price := ExecPrice(o.side, o.symbol, tick, o.filled);
      var quantity := Min(remaining, Depth(o.symbol));
      var reached := o.filled + quantity;
      if attached {
        orders := orders[o.symbol := orders[o.symbol][o.id := entry.(state := QUEUED, expected := reached)]];
      }
      executionQueue := executionQueue + [Job(o.id, price, quantity, reached)];
    }

    /** A limit order, or an activated one, met by a tick: the snapshot `met` decides, the entry is triggered. */
    method EvaluateLimit(entry: EngineOrder, met: Order, attached: bool, tick: real)
      requires attached ==> InBook(State(), entry)
      requires entry.order.symbol in ownedSymbols
      modifies this`orders, this`executionQueue
      ensures WithinLimit(met, PriceNow(met, tick)) ==>
        && State() == Settled(old(State()), entry.order, attached, Trigger(entry, tick))
        && executionQueue == old(executionQueue) + JobsOf(Trigger(entry, tick))
      ensures !WithinLimit(met, PriceNow(met, tick)) ==>
          State() == old(State()) && executionQueue == old(executionQueue)
    {
      hide Trigger;
      var price := ExecPrice(met.side, met.symbol, tick, met.filled);
      if WithinLimit(met, price) { TriggerExecution(entry, attached, tick); }
    }

    /** One READY order meets a tick. An activation is only asked for here; ResumeOrder carries it on. */
    method EvaluateOrder(entry: EngineOrder, tick: real)
      requires InBook(State(), entry) && entry.state.READY?
      modifies this`orders, this`executionQueue, this`activationRequests
      ensures ownedSymbols == old(ownedSymbols)
      ensures entry.order.symbol !in ownedSymbols ==>
        State() == old(State()) && executionQueue == old(executionQueue)
          && activationRequests == old(activationRequests)
      ensures entry.order.symbol in ownedSymbols ==>
        var out := EvaluateEntry(entry, tick);
        && State() == WithEntry(old(State()), entry.order.symbol, entry.order.id, out.entry)
        && executionQueue == old(executionQueue) + JobsOf(out)
        && activationRequests == old(activationRequests) + RequestsOf(entry, tick)
    {
      hide Trigger, ExecPrice;
      var o := entry.order;
      if o.symbol !in ownedSymbols { return; }
      SameEntry(State(), o.symbol, o.id);
      TriggerActivatesNothing(entry, tick);
      SettledInBook(State(), entry, tick);
      if o.kind.STOP? {
        if Crosses(o, tick) { TriggerExecution(entry, true, tick); }
        return;
      }
      if o.kind.STOP_LIMIT? && !o.isActivated {
        if Crosses(o, tick) {
          orders := orders[o.symbol := orders[o.symbol][o.id := entry.(order := o.(isActivated := true))]];
          activationRequests := activationRequests + [(o, tick)];
        }
        return;
      }
      if o.kind.LIMIT? || o.kind.STOP_LIMIT? {
        EvaluateLimit(entry, o, true, tick);
        return;
      }
      TriggerExecution(entry, true, tick);
    }

    /** The activation was committed and returned a row: the evaluation goes on with it, whatever became of the
        entry meanwhile. A detached entry is no longer in its book. */
    method ResumeOrder(entry: EngineOrder, met: Order, activated: Order, attached: bool, tick: real)
      requires activated.id == met.id == entry.order.id && activated.symbol == met.symbol == entry.order.symbol
      requires attached ==> InBook(State(), entry)
      modifies this`orders, this`executionQueue
      ensures ownedSymbols == old(ownedSymbols)
      ensures met.symbol !in ownedSymbols ==> State() == old(State()) && executionQueue == old(executionQueue)
      ensures met.symbol in ownedSymbols ==>
        var out := ResumeEntry(entry, met, activated, tick);
        && State() == Settled(old(State()), activated, attached, out)
        && executionQueue == old(executionQueue) + JobsOf(out)
    {
      hide Trigger, WithinLimit, ExecPrice;
      if met.symbol !in ownedSymbols { return; }
      var now := entry.(order := activated);
      if attached { orders := orders[met.symbol := orders[met.symbol][met.id := now]]; }
      ReplacedSettles(old(State()), now, attached, tick);
      EvaluateLimit(now, met, attached, tick);
    }

    /** The activation failed: the snapshot in memory is put back. */
    method ActivationFailed(entry: EngineOrder)
      requires InBook(State(), entry)
      modifies this`orders
      ensures State()
        == WithEntry(old(State()), entry.order.symbol, entry.order.id,
                     Some(entry.(order := entry.order.(isActivated := false))))
    {
      var o := entry.order;
      orders := orders[o.symbol := orders[o.symbol][o.id := entry.(order := o.(isActivated := false))]];
    }

    /** A tick visits every order of the symbol's book: whatever the visiting order, each entry ends as if it had
        met the tick alone, and at most one slice, or one activation, per order is sent out. */
    method HandleTick(symbol: Symbol, tick: real)
      requires symbol in orders ==> Filed(orders[symbol], symbol)
      modifies this`orders, this`executionQueue, this`activationRequests
      ensures ownedSymbols == old(ownedSymbols)
      ensures symbol !in ownedSymbols ==>
        orders == old(orders) && executionQueue == old(executionQueue) && activationRequests == old(activationRequests)
      ensures symbol in ownedSymbols ==>
        && orders == (if symbol in old(orders) then old(orders)[symbol := TickBook(old(orders)[symbol], tick)]
                      else old(orders))
        && TickSent(old(BookOf(State(), symbol)), tick, old(executionQueue), executionQueue, old(activationRequests),
                    activationRequests)
    {
      if symbol !in ownedSymbols { return; }
      if symbol !in orders {
        NothingSent(tick, executionQueue, activationRequests);
        return;
      }
      hide TickLoop, TickBook, SentFor, EvaluateEntry, NextBook, Filed;
      ghost var start, queue, requests := orders, executionQueue, activationRequests;
      var todo := orders[symbol].Keys;
      LoopStarts(start, symbol, tick, queue, requests);
      while todo != {}
        invariant TickLoop(start, orders, todo, symbol, tick, queue, executionQueue, requests, activationRequests)
        invariant ownedSymbols == old(ownedSymbols)
        decreases |todo|
      {
        SomeMember(todo);
        var id :| id in todo;
        ghost var before, sent, asked := orders, executionQueue, activationRequests;
        LoopAt(start, orders, todo, symbol, tick, id, queue, executionQueue, requests, activationRequests);
        VisitEntry(symbol, id, tick);
        LoopMoves(start, before, todo, symbol, tick, id, queue, sent, requests, asked);
        todo := todo - {id};
      }
      LoopEnds(start, orders, symbol, tick, queue, executionQueue, requests, activationRequests);
    }

    /** The loop's body: queued entries are passed over. */
    method VisitEntry(symbol: Symbol, id: Id, tick: real)
      requires symbol in ownedSymbols && symbol in orders && id in orders[symbol] && Filed(orders[symbol], symbol)
      modifies this`orders, this`executionQueue, this`activationRequests
      ensures ownedSymbols == old(ownedSymbols)
      ensures orders == old(orders)[symbol := NextBook(old(orders)[symbol], id, tick)]
      ensures executionQueue == old(executionQueue) + JobsOf(EvaluateEntry(old(orders)[symbol][id], tick))
      ensures activationRequests == old(activationRequests) + RequestsOf(old(orders)[symbol][id], tick)
    {
      hide EvaluateEntry;
      var entry := orders[symbol][id];
      if entry.state.QUEUED? {
        QueuedSendsNothing(entry, tick);
        SameEntry(State(), symbol, id);
        return;
      }
      EvaluateOrder(entry, tick);
    }

    /** Periodic reconciliation: the books follow the fillable rows found for the owned symbols, and when an order had
        to be recovered every owned book is evaluated at once at the fresh prices known. A lease may have been lost
        while the query ran: rows of a symbol no longer owned are not taken in. */
    method Reconcile(rows: map<Id, Order>, latest: map<Symbol, real>)
      requires AllFiled(State()) && forall id | id in rows :: rows[id].id == id
      modifies this`orders, this`executionQueue, this`activationRequests
      ensures ownedSymbols == old(ownedSymbols)
      ensures Reconciled(old(State()), ReconciledEngine(old(State()), rows), rows)
      ensures !AnyOrphan(old(State()), rows) ==>
        && State() == ReconciledEngine(old(State()), rows)
        && executionQueue == old(executionQueue) && activationRequests == old(activationRequests)
      ensures AnyOrphan(old(State()), rows) ==>
        var middle := ReconciledEngine(old(State()), rows);
        && State() == EvaluatedEngine(middle, ownedSymbols, latest)
        && EvaluationSent(middle, ownedSymbols, latest, old(executionQueue), executionQueue,
                          old(activationRequests), activationRequests)
    {
      hide AnyOrphan, Reconciled, ReconciledEngine, EvaluatedEngine, EvaluationSent, AllFiled;
      ghost var start := State();
      ReconciledBooks(start, rows);
      var recovered := FollowRows(rows);
      if recovered {
        ReconciledFiled(start, State(), rows);
        EvaluateOwned(latest);
      }
    }

    /** Evaluates every owned book that has a fresh price. */
    method EvaluateOwned(latest: map<Symbol, real>)
      requires AllFiled(State())
      modifies this`orders, this`executionQueue, this`activationRequests
      ensures ownedSymbols == old(ownedSymbols)
      ensures State() == EvaluatedEngine(old(State()), ownedSymbols, latest)
      ensures EvaluationSent(old(State()), ownedSymbols, latest, old(executionQueue), executionQueue,
                             old(activationRequests), activationRequests)
    {
      hide AllFiled, EvaluatedEngine, EvaluationSent, TickSent, TickBook;
      ghost var start, queue, requests := State(), executionQueue, activationRequests;
      var symbols := ownedSymbols;
      NothingEvaluated(start, latest, queue, requests);
      assert ownedSymbols - symbols == {};
      while symbols != {}
        invariant symbols <= ownedSymbols == start.owned
        invariant State() == EvaluatedEngine(start, ownedSymbols - symbols, latest)
        invariant EvaluationSent(start, ownedSymbols - symbols, latest, queue, executionQueue, requests,
                                 activationRequests)
        decreases |symbols|
      {
        var symbol :| symbol in symbols;
        ghost var done := ownedSymbols - symbols;
        ghost var before, sent, asked := State(), executionQueue, activationRequests;
        symbols := symbols - {symbol};
        assert ownedSymbols - symbols == done + {symbol};
        NotYetEvaluated(start, done, latest, symbol);
        if symbol in latest { HandleTick(symbol, latest[symbol]); }
        OneMoreEvaluated(start, before, State(), done, latest, symbol, queue, sent, executionQueue, requests, asked,
                         activationRequests);
      }
      assert ownedSymbols - symbols == ownedSymbols;
    }

    /** Takes in the orphans and evicts the ghosts. */
    method FollowRows(rows: map<Id, Order>) returns (recovered: bool)
      requires forall id | id in rows :: rows[id].id == id
      modifies this`orders
      ensures State() == ReconciledEngine(old(State()), rows)
      ensures recovered == AnyOrphan(old(State()), rows)
    {
      hide TakenIn, WithOrphansIn, Evicted, Orphan;
      ghost var start := State();
      var seen: set<Id> := {};
      recovered := false;
      NoOrphansYet(start, rows);
      while seen != rows.Keys
        invariant seen <= rows.Keys && State() == WithOrphansIn(start, rows, seen) && ownedSymbols == start.owned
        invariant recovered == exists id :: id in seen && id in rows && Orphan(start, rows[id])
        decreases |rows.Keys - seen|
      {
        SomeMember(rows.Keys - seen);
        var id :| id in rows.Keys - seen;
        OneMoreOrphan(start, rows, seen, id);
        assert rows.Keys - (seen + {id}) == (rows.Keys - seen) - {id};
        seen := seen + {id};
        var taken := TakeIn(rows[id]);
        if taken { recovered := true; }
      }
      Evict(rows.Keys);
    }

    /** A row with something left that no book has yet. */
    method TakeIn(o: Order) returns (taken: bool)
      modifies this`orders
      ensures State() == TakenIn(old(State()), o) && taken == Orphan(old(State()), o)
    {
      taken := false;
      if o.requested - o.filled > 0.0 {
        var book := if o.symbol in orders then orders[o.symbol] else map[];
        if o.id !in book {
          AddOrder(o);
          taken := true;
        }
      }
    }

    /** Drops from the owned books every order the database no longer lists. */
    method Evict(pending: set<Id>)
      modifies this`orders
      ensures State() == Evicted(old(State()), ownedSymbols, pending)
    {
      hide Kept, Evicted;
      ghost var start := State();
      var symbols := ownedSymbols;
      NothingEvicted(start, pending);
      assert ownedSymbols - symbols == {};
      while symbols != {}
        invariant symbols <= ownedSymbols && State() == Evicted(start, ownedSymbols - symbols, pending)
        decreases |symbols|
      {
        var symbol :| symbol in symbols;
        ghost var done := ownedSymbols - symbols;
        symbols := symbols - {symbol};
        assert ownedSymbols - symbols == done + {symbol};
        OneMoreEvicted(start, done, pending, symbol);
        if symbol in orders {
          var kept := EvictFrom(orders[symbol], pending);
          orders := orders[symbol := kept];
        }
      }
      assert ownedSymbols - symbols == ownedSymbols;
    }

    method EvictFrom(book: Book, pending: set<Id>) returns (kept: Book)
      ensures kept == Kept(book, pending)
    {
      kept := book;
      var ids := book.Keys;
      while ids != {}
        invariant ids <= book.Keys
        invariant kept == map id | id in book && (id in ids || id in pending) :: book[id]
        decreases |ids|
      {
        SomeMember(ids);
        var id :| id in ids;
        ids := ids - {id};
        if id !in pending { kept := kept - {id}; }
      }
    }
  }

  /** The entry is the one its book has. */
  predicate InBook(e: Engine, entry: EngineOrder) {
    && entry.order.symbol in e.books && entry.order.id in e.books[entry.order.symbol]
    && e.books[entry.order.symbol][entry.order.id] == entry
  }

  /** The engine after an outcome: a detached entry leaves no trace, unless its order is finished and dropped. */
  function Settled(e: Engine, o: Order, attached: bool, out: Outcome): Engine {
    if out.entry.None? then EngineSpec.RemoveOrder(e, o.id, o.symbol)
    else if attached then WithEntry(e, o.symbol, o.id, out.entry)
    else e
  }

  function RequestsOf(entry: EngineOrder, tick: real): seq<(Order, real)> {
    if EvaluateEntry(entry, tick).activate then [(entry.order, tick)] else []
  }

  /** In its book, settling is replacing. */
  lemma SettledInBook(e: Engine, entry: EngineOrder, tick: real)
    requires InBook(e, entry)
    ensures Settled(e, entry.order, true, Trigger(entry, tick))
      == WithEntry(e, entry.order.symbol, entry.order.id, Trigger(entry, tick).entry)
  {}

  /** Replacing the row first and settling then is settling the replaced entry. */
  lemma ReplacedSettles(e: Engine, now: EngineOrder, attached: bool, tick: real)
    requires attached ==> now.order.symbol in e.books && now.order.id in e.books[now.order.symbol]
    ensures var replaced := if attached then WithEntry(e, now.order.symbol, now.order.id, Some(now)) else e;
            && Settled(replaced, now.order, attached, Trigger(now, tick))
                 == Settled(e, now.order, attached, Trigger(now, tick))
            && (attached ==> InBook(replaced, now))
  {
    hide PriceNow, NextSlice;
    if attached {
      var symbol, id := now.order.symbol, now.order.id;
      var replaced := WithEntry(e, symbol, id, Some(now));
      match Trigger(now, tick).entry
      case Some(x) =>
        assert replaced.books[symbol][id := x] == e.books[symbol][id := x];
        assert replaced.books[symbol := replaced.books[symbol][id := x]] == e.books[symbol := e.books[symbol][id := x]];
      case None =>
        assert replaced.books[symbol] - {id} == e.books[symbol] - {id};
        assert replaced.books[symbol := replaced.books[symbol] - {id}] == e.books[symbol := e.books[symbol] - {id}];
    }
  }

  /** A row with something left that its book does not have. */
  predicate Orphan(e: Engine, o: Order) {
    Remaining(o) > 0.0 && o.id !in BookOf(e, o.symbol)
  }

  ghost predicate AnyOrphan(e: Engine, rows: map<Id, Order>) {
    exists id :: id in rows && Orphan(e, rows[id])
  }

  /** The owned books follow the rows; the others are untouched. */
  ghost predicate Reconciled(e: Engine, e': Engine, rows: map<Id, Order>) {
    && e'.owned == e.owned
    && (forall symbol | symbol in e.owned :: BookOf(e', symbol) == ReconciledBook(BookOf(e, symbol), rows, symbol))
    && (forall symbol | symbol !in e.owned :: BookOf(e', symbol) == BookOf(e, symbol))
  }

  /** The owned symbols that had an orphan among the rows seen: each has a book from then on. */
  function OrphanSymbols(e: Engine, rows: map<Id, Order>, seen: set<Id>): set<Symbol> {
    set id | id in seen && id in rows && rows[id].symbol in e.owned && Orphan(e, rows[id]) :: rows[id].symbol
  }

  /** The engine once it has taken in the orphans among the rows seen. */
  function WithOrphansIn(e: Engine, rows: map<Id, Order>, seen: set<Id>): Engine {
    Engine(e.owned, map symbol | symbol in e.books.Keys + OrphanSymbols(e, rows, seen) ::
      if symbol in e.owned then WithOrphans(BookOf(e, symbol), rows, seen, symbol) else BookOf(e, symbol))
  }

  /** The engine once these symbols' books only keep listed orders. */
  function Evicted(e: Engine, symbols: set<Symbol>, pending: set<Id>): Engine {
    Engine(e.owned, map symbol | symbol in e.books ::
      if symbol in symbols then Kept(e.books[symbol], pending) else e.books[symbol])
  }

  function ReconciledEngine(e: Engine, rows: map<Id, Order>): Engine {
    Evicted(WithOrphansIn(e, rows, rows.Keys), e.owned, rows.Keys)
  }

  lemma OrphanHasBook(e: Engine, rows: map<Id, Order>, seen: set<Id>, id: Id)
    requires id in seen && id in rows && rows[id].symbol in e.owned
    ensures Orphan(e, rows[id]) ==> rows[id].symbol in OrphanSymbols(e, rows, seen)
  {
    hide Orphan;
  }

  /** A book of the engine with orphans, also of a symbol that had none. */
  lemma OrphansOf(e: Engine, rows: map<Id, Order>, seen: set<Id>, symbol: Symbol)
    ensures BookOf(WithOrphansIn(e, rows, seen), symbol)
      == if symbol in e.owned then WithOrphans(BookOf(e, symbol), rows, seen, symbol) else BookOf(e, symbol)
  {
    if symbol in e.owned && symbol !in WithOrphansIn(e, rows, seen).books {
      forall id | id in seen && id in rows && rows[id].symbol == symbol ensures Remaining(rows[id]) <= 0.0 {
        OrphanHasBook(e, rows, seen, id);
      }
      assert WithOrphans(map[], rows, seen, symbol) == map[];
    }
  }

  lemma KeptOfEvicted(e: Engine, symbols: set<Symbol>, pending: set<Id>, symbol: Symbol)
    ensures BookOf(Evicted(e, symbols, pending), symbol)
      == if symbol in symbols then Kept(BookOf(e, symbol), pending) else BookOf(e, symbol)
  {
    assert Kept(map[], pending) == map[];
  }

  lemma OrphansKept(book: Book, rows: map<Id, Order>, symbol: Symbol)
    ensures Kept(WithOrphans(book, rows, rows.Keys, symbol), rows.Keys) == ReconciledBook(book, rows, symbol)
  {}

  lemma ReconciledBooks(e: Engine, rows: map<Id, Order>)
    ensures Reconciled(e, ReconciledEngine(e, rows), rows)
  {
    hide WithOrphans, Kept, ReconciledBook;
    var full, end := WithOrphansIn(e, rows, rows.Keys), ReconciledEngine(e, rows);
    hide WithOrphansIn, Evicted, BookOf;
    forall symbol: Symbol
      ensures BookOf(end, symbol)
        == if symbol in e.owned then ReconciledBook(BookOf(e, symbol), rows, symbol) else BookOf(e, symbol)
    {
      OrphansOf(e, rows, rows.Keys, symbol);
      KeptOfEvicted(full, e.owned, rows.Keys, symbol);
      OrphansKept(BookOf(e, symbol), rows, symbol);
    }
    assert end.owned == e.owned by { SameOwned(e, rows); }
  }

  lemma SameOwned(e: Engine, rows: map<Id, Order>)
    ensures ReconciledEngine(e, rows).owned == WithOrphansIn(e, rows, rows.Keys).owned == e.owned
  {
    hide WithOrphans, Kept;
  }

  lemma ReconciledFiled(e: Engine, e': Engine, rows: map<Id, Order>)
    requires AllFiled(e) && Reconciled(e, e', rows) && forall id | id in rows :: rows[id].id == id
    ensures AllFiled(e')
  {
    forall symbol | symbol in e'.books ensures Filed(e'.books[symbol], symbol) {
      assert e'.books[symbol] == BookOf(e', symbol);
      assert symbol in e.books ==> Filed(e.books[symbol], symbol);
    }
  }

  /** The engine once these symbols' books met their fresh prices, where there is one. */
  function EvaluatedEngine(e: Engine, symbols: set<Symbol>, latest: map<Symbol, real>): Engine {
    Engine(e.owned, map symbol | symbol in e.books ::
      if symbol in symbols && symbol in latest then TickBook(e.books[symbol], latest[symbol]) else e.books[symbol])
  }

  ghost predicate EvaluationJob(e: Engine, symbols: set<Symbol>, latest: map<Symbol, real>, j: Job) {
    exists symbol ::
      symbol in symbols && symbol in latest && TickJob(BookOf(e, symbol), BookOf(e, symbol).Keys, latest[symbol], j)
  }

  ghost predicate EvaluationRequest(e: Engine, symbols: set<Symbol>, latest: map<Symbol, real>, q: (Order, real)) {
    exists symbol ::
      symbol in symbols && symbol in latest && TickRequest(BookOf(e, symbol), BookOf(e, symbol).Keys, latest[symbol], q)
  }

  /** What the queues gained is what these books sent. */
  ghost predicate EvaluationSent(e: Engine, symbols: set<Symbol>, latest: map<Symbol, real>, queue: seq<Job>,
                                 queue': seq<Job>,
                                 requests: seq<(Order, real)>, requests': seq<(Order, real)>)
  {
    && queue <= queue' && requests <= requests'
    && (forall j :: j in queue'[|queue|..] <==> EvaluationJob(e, symbols, latest, j))
    && (forall q :: q in requests'[|requests|..] <==> EvaluationRequest(e, symbols, latest, q))
  }

  lemma NothingEvaluated(e: Engine, latest: map<Symbol, real>, queue: seq<Job>, requests: seq<(Order, real)>)
    ensures EvaluatedEngine(e, {}, latest) == e
    ensures EvaluationSent(e, {}, latest, queue, queue, requests, requests)
  {
    hide TickJob, TickRequest;
    assert EvaluatedEngine(e, {}, latest).books == e.books;
  }

  lemma NotYetEvaluated(e: Engine, symbols: set<Symbol>, latest: map<Symbol, real>, symbol: Symbol)
    requires symbol !in symbols && AllFiled(e)
    ensures var now := EvaluatedEngine(e, symbols, latest);
            BookOf(now, symbol) == BookOf(e, symbol) && (symbol in now.books ==> Filed(now.books[symbol], symbol))
  {
    hide TickBook;
  }

  lemma OneMoreEvaluated(e: Engine, now: Engine, next: Engine, symbols: set<Symbol>, latest: map<Symbol, real>,
                         symbol: Symbol, queue: seq<Job>, sent: seq<Job>, sent': seq<Job>,
                         requests: seq<(Order, real)>, asked: seq<(Order, real)>, asked': seq<(Order, real)>)
    requires now == EvaluatedEngine(e, symbols, latest)
    requires EvaluationSent(e, symbols, latest, queue, sent, requests, asked)
    requires symbol !in symbols && BookOf(now, symbol) == BookOf(e, symbol)
    requires symbol !in latest ==> next == now && sent' == sent && asked' == asked
    requires symbol in latest ==> TickSent(BookOf(now, symbol), latest[symbol], sent, sent', asked, asked')
    requires symbol in latest ==> next.owned == now.owned
    requires symbol in latest ==>
      next.books == if symbol in now.books then now.books[symbol := TickBook(now.books[symbol], latest[symbol])]
        else now.books
    ensures next == EvaluatedEngine(e, symbols + {symbol}, latest)
    ensures EvaluationSent(e, symbols + {symbol}, latest, queue, sent', requests, asked')
  {
    hide TickBook, TickJob, TickRequest;
    GainedMore(queue, sent, sent');
    GainedMore(requests, asked, asked');
    assert next.books == EvaluatedEngine(e, symbols + {symbol}, latest).books;
  }

  lemma GainedMore<T>(queue: seq<T>, sent: seq<T>, sent': seq<T>)
    requires queue <= sent
    ensures sent <= sent' ==> queue <= sent' && sent'[|queue|..] == sent[|queue|..] + sent'[|sent|..]
    ensures sent[|sent|..] == []
  {}

  lemma NothingSent(tick: real, queue: seq<Job>, requests: seq<(Order, real)>)
    ensures TickSent(map[], tick, queue, queue, requests, requests)
  {}

  /** What is left of a book once it only holds listed orders. */
  function Kept(book: Book, pending: set<Id>): Book {
    map id | id in book && id in pending :: book[id]
  }

  lemma NothingEvicted(e: Engine, pending: set<Id>)
    ensures Evicted(e, {}, pending) == e
  {
    assert Evicted(e, {}, pending).books == e.books;
  }

  lemma OneMoreEvicted(e: Engine, symbols: set<Symbol>, pending: set<Id>, symbol: Symbol)
    requires symbol !in symbols
    ensures var now, next := Evicted(e, symbols, pending), Evicted(e, symbols + {symbol}, pending);
            if symbol in now.books then next == now.(books := now.books[symbol := Kept(now.books[symbol], pending)])
            else next == now
  {
    hide Kept;
    var now, next := Evicted(e, symbols, pending), Evicted(e, symbols + {symbol}, pending);
    if symbol in now.books {
      assert next.books == now.books[symbol := Kept(now.books[symbol], pending)];
    } else {
      assert next.books == now.books;
    }
  }

  lemma SameEntry(e: Engine, symbol: Symbol, id: Id)
    requires symbol in e.books && id in e.books[symbol]
    ensures WithEntry(e, symbol, id, Some(e.books[symbol][id])) == e
    ensures e.books[symbol := e.books[symbol]] == e.books
  {
    assert e.books[symbol][id := e.books[symbol][id]] == e.books[symbol];
    assert e.books[symbol := e.books[symbol]] == e.books;
  }

  lemma TriggerActivatesNothing(entry: EngineOrder, tick: real)
    ensures !Trigger(entry, tick).activate
  {}

  function NextBook(book: Book, id: Id, tick: real): Book
    requires id in book
  {
    match EvaluateEntry(book[id], tick).entry
    case Some(x) => book[id := x]
    case None => book - {id}
  }

  function TakenIn(e: Engine, o: Order): Engine {
    if Remaining(o) > 0.0 && o.id !in BookOf(e, o.symbol) then EngineSpec.AddOrder(e, o) else e
  }

  lemma NoOrphansYet(e: Engine, rows: map<Id, Order>)
    ensures WithOrphansIn(e, rows, {}) == e
  {
    var e' := WithOrphansIn(e, rows, {});
    forall symbol | symbol in e.books ensures e'.books[symbol] == e.books[symbol] {
      assert WithOrphans(e.books[symbol], rows, {}, symbol) == e.books[symbol];
    }
    assert e'.books == e.books;
  }

  /** The next row: it is an orphan now exactly when it was one at the start, and taking it in is taking in one more. */
  lemma OneMoreOrphan(e: Engine, rows: map<Id, Order>, seen: set<Id>, id: Id)
    requires id in rows && id !in seen && rows[id].id == id
    ensures var now := WithOrphansIn(e, rows, seen);
            && (Orphan(now, rows[id]) <==> Orphan(e, rows[id]))
            && TakenIn(now, rows[id]) == WithOrphansIn(e, rows, seen + {id})
  {
    hide WithOrphans, Orphan, OrphanSymbols, BookOf;
    var o, now := rows[id], WithOrphansIn(e, rows, seen);
    OrphanInBook(BookOf(e, o.symbol), rows, seen, o.symbol, id);
    OrphansOf(e, rows, seen, o.symbol);
    OrphanByBook(now, e, o);
    BooksOneMore(e, rows, seen, id);
    TakenInBooks(now, o);
  }

  lemma TakenInBooks(e: Engine, o: Order)
    ensures TakenIn(e, o) == if o.symbol in e.owned && Orphan(e, o)
      then e.(books := e.books[o.symbol := BookOf(e, o.symbol)[o.id := EngineOrder(o, READY, o.filled)]]) else e
  {}

  lemma BooksOneMore(e: Engine, rows: map<Id, Order>, seen: set<Id>, id: Id)
    requires id in rows && id !in seen && rows[id].id == id
    ensures var o, now, next := rows[id], WithOrphansIn(e, rows, seen), WithOrphansIn(e, rows, seen + {id});
            next == if o.symbol in e.owned && Orphan(e, o)
              then now.(books := now.books[o.symbol := BookOf(now, o.symbol)[id := EngineOrder(o, READY, o.filled)]])
              else now
  {
    hide WithOrphans, OrphanSymbols;
    var o, now, next := rows[id], WithOrphansIn(e, rows, seen), WithOrphansIn(e, rows, seen + {id});
    MoreSymbols(e, rows, seen, id);
    OrphansOf(e, rows, seen, o.symbol);
    OrphanInBook(BookOf(e, o.symbol), rows, seen, o.symbol, id);
    forall symbol | symbol in now.books && symbol != o.symbol
      ensures symbol in next.books && next.books[symbol] == now.books[symbol]
    {
      OrphanInBook(BookOf(e, symbol), rows, seen, symbol, id);
    }
    if o.symbol in e.owned && Orphan(e, o) {
      assert next.books == now.books[o.symbol := BookOf(now, o.symbol)[id := EngineOrder(o, READY, o.filled)]];
    } else {
      assert next.books == now.books;
    }
  }

  lemma OrphanByBook(now: Engine, e: Engine, o: Order)
    requires o.id in BookOf(now, o.symbol) <==> o.id in BookOf(e, o.symbol)
    ensures Orphan(now, o) <==> Orphan(e, o)
  {}

  lemma MoreSymbols(e: Engine, rows: map<Id, Order>, seen: set<Id>, id: Id)
    requires id in rows
    ensures OrphanSymbols(e, rows, seen + {id}) == OrphanSymbols(e, rows, seen)
      + (if rows[id].symbol in e.owned && Orphan(e, rows[id]) then {rows[id].symbol} else {})
  {
    hide Orphan;
  }

  lemma OrphanInBook(book: Book, rows: map<Id, Order>, seen: set<Id>, symbol: Symbol, id: Id)
    requires id in rows && id !in seen
    ensures var before, after := WithOrphans(book, rows, seen, symbol), WithOrphans(book, rows, seen + {id}, symbol);
            && (id in before <==> id in book)
            && after == if id !in book && rows[id].symbol == symbol && Remaining(rows[id]) > 0.0
                        then before[id := EngineOrder(rows[id], READY, rows[id].filled)] else before
  {}

  function JobsOf(out: Outcome): seq<Job> {
    if out.job.Some? then [out.job.value] else []
  }

  /** The entries outside `todo` have met the tick, the others are as they were. */
  ghost predicate PartlyTicked(book: Book, now: Book, todo: set<Id>, tick: real) {
    && now.Keys == (set id | id in book && (id in todo || EvaluateEntry(book[id], tick).entry.Some?))
    && forall id | id in now :: now[id] == if id in todo then book[id] else EvaluateEntry(book[id], tick).entry.value
  }

  lemma KeepsIdentity(entry: EngineOrder, tick: real)
    ensures var out := EvaluateEntry(entry, tick);
            && (out.entry.Some? ==>
                out.entry.value.order.id == entry.order.id && out.entry.value.order.symbol == entry.order.symbol)
            && (out.job.Some? ==> out.job.value.orderId == entry.order.id)
  {
    hide ExecPrice;
  }

  lemma QueuedSendsNothing(entry: EngineOrder, tick: real)
    requires entry.state.QUEUED?
    ensures EvaluateEntry(entry, tick) == Outcome(Some(entry), None, false)
  {}

  /** Where the tick loop stands: `todo` is still to be visited. */
  ghost predicate TickProgress(book: Book, now: Book, todo: set<Id>, symbol: Symbol, tick: real,
                               sent: seq<Job>, asked: seq<(Order, real)>)
  {
    && (forall id | id in book :: book[id].order.id == id)
    && PartlyTicked(book, now, todo, tick) && Filed(now, symbol) && SentFor(book, book.Keys - todo, tick, sent, asked)
  }

  lemma NothingTicked(book: Book, symbol: Symbol, tick: real)
    requires Filed(book, symbol)
    ensures TickProgress(book, book, book.Keys, symbol, tick, [], [])
  {
    hide EvaluateEntry;
  }

  lemma VisitOne(book: Book, now: Book, todo: set<Id>, symbol: Symbol, tick: real, id: Id,
                 sent: seq<Job>, asked: seq<(Order, real)>)
    requires TickProgress(book, now, todo, symbol, tick, sent, asked) && id in todo && todo <= book.Keys
    ensures id in now && now[id] == book[id] && Filed(now, symbol)
    ensures TickProgress(book, NextBook(now, id, tick), todo - {id}, symbol, tick,
                         sent + JobsOf(EvaluateEntry(book[id], tick)), asked + RequestsOf(book[id], tick))
  {
    hide EvaluateEntry, SentFor;
    KeepsIdentity(book[id], tick);
    SentOneMore(book, todo, tick, id, sent, asked);
  }

  lemma SentOneMore(book: Book, todo: set<Id>, tick: real, id: Id, sent: seq<Job>, asked: seq<(Order, real)>)
    requires id in todo && todo <= book.Keys && forall i | i in book :: book[i].order.id == i
    requires SentFor(book, book.Keys - todo, tick, sent, asked)
    ensures SentFor(book, book.Keys - (todo - {id}), tick, sent + JobsOf(EvaluateEntry(book[id], tick)),
                    asked + RequestsOf(book[id], tick))
  {
    hide EvaluateEntry, SentFor;
    JobsOneMore(book, todo, tick, id, sent, asked);
    RequestsOneMore(book, todo, tick, id, sent, asked);
    SentByParts(book, book.Keys - (todo - {id}), tick, sent + JobsOf(EvaluateEntry(book[id], tick)),
                asked + RequestsOf(book[id], tick));
  }

  ghost predicate JobsFor(book: Book, ids: set<Id>, tick: real, sent: seq<Job>) {
    && (forall j :: j in sent <==> TickJob(book, ids, tick, j))
    && (forall a, b | 0 <= a < b < |sent| :: sent[a].orderId != sent[b].orderId)
  }

  ghost predicate RequestsFor(book: Book, ids: set<Id>, tick: real, asked: seq<(Order, real)>) {
    && (forall q :: q in asked <==> TickRequest(book, ids, tick, q))
    && (forall a, b | 0 <= a < b < |asked| :: asked[a].0.id != asked[b].0.id)
  }

  lemma SentByParts(book: Book, ids: set<Id>, tick: real, sent: seq<Job>, asked: seq<(Order, real)>)
    ensures SentFor(book, ids, tick, sent, asked) <==>
        JobsFor(book, ids, tick, sent) && RequestsFor(book, ids, tick, asked)
  {
    hide TickJob, TickRequest;
  }

  lemma JobsOneMore(book: Book, todo: set<Id>, tick: real, id: Id, sent: seq<Job>, asked: seq<(Order, real)>)
    requires id in todo && todo <= book.Keys && forall i | i in book :: book[i].order.id == i
    requires SentFor(book, book.Keys - todo, tick, sent, asked)
    ensures JobsFor(book, book.Keys - (todo - {id}), tick, sent + JobsOf(EvaluateEntry(book[id], tick)))
  {
    hide EvaluateEntry;
    SentByParts(book, book.Keys - todo, tick, sent, asked);
    KeepsIdentity(book[id], tick);
    var more := JobsOf(EvaluateEntry(book[id], tick));
    forall j ensures j in sent + more <==> TickJob(book, book.Keys - (todo - {id}), tick, j) {
      TickJobOneMore(book, todo, tick, id, j);
    }
    forall a | 0 <= a < |sent| ensures sent[a].orderId != id {
      assert sent[a] in sent;
      var i :| i in book.Keys - todo && i in book && EvaluateEntry(book[i], tick).job == Some(sent[a]);
      KeepsIdentity(book[i], tick);
    }
  }

  lemma RequestsOneMore(book: Book, todo: set<Id>, tick: real, id: Id, sent: seq<Job>, asked: seq<(Order, real)>)
    requires id in todo && todo <= book.Keys && forall i | i in book :: book[i].order.id == i
    requires SentFor(book, book.Keys - todo, tick, sent, asked)
    ensures RequestsFor(book, book.Keys - (todo - {id}), tick, asked + RequestsOf(book[id], tick))
  {
    hide EvaluateEntry;
    SentByParts(book, book.Keys - todo, tick, sent, asked);
    var more := RequestsOf(book[id], tick);
    forall q ensures q in asked + more <==> TickRequest(book, book.Keys - (todo - {id}), tick, q) {
      TickRequestOneMore(book, todo, tick, id, q);
    }
    forall a | 0 <= a < |asked| ensures asked[a].0.id != id {
      assert asked[a] in asked;
      var i :| i in book.Keys - todo && i in book && EvaluateEntry(book[i], tick).activate
        && asked[a] == (book[i].order, tick);
    }
  }

  /** The loop of one tick: only the symbol's book changes, and the queues gain what its entries sent. */
  ghost predicate TickLoop(start: map<Symbol, Book>, orders: map<Symbol, Book>, todo: set<Id>, symbol: Symbol,
                           tick: real, queue: seq<Job>, queue': seq<Job>,
                           requests: seq<(Order, real)>, requests': seq<(Order, real)>)
  {
    && symbol in start && symbol in orders && orders == start[symbol := orders[symbol]]
    && todo <= start[symbol].Keys && queue <= queue' && requests <= requests'
    && TickProgress(start[symbol], orders[symbol], todo, symbol, tick, queue'[|queue|..], requests'[|requests|..])
  }

  lemma LoopStarts(start: map<Symbol, Book>, symbol: Symbol, tick: real, queue: seq<Job>, requests: seq<(Order, real)>)
    requires symbol in start && Filed(start[symbol], symbol)
    ensures TickLoop(start, start, start[symbol].Keys, symbol, tick, queue, queue, requests, requests)
  {
    hide TickProgress;
    NothingTicked(start[symbol], symbol, tick);
    assert start[symbol := start[symbol]] == start;
    assert queue[|queue|..] == [] && requests[|requests|..] == [];
  }

  lemma LoopAt(start: map<Symbol, Book>, orders: map<Symbol, Book>, todo: set<Id>, symbol: Symbol, tick: real, id: Id,
               queue: seq<Job>, queue': seq<Job>, requests: seq<(Order, real)>, requests': seq<(Order, real)>)
    requires TickLoop(start, orders, todo, symbol, tick, queue, queue', requests, requests') && id in todo
    ensures symbol in orders && id in orders[symbol] && Filed(orders[symbol], symbol)
  {
    hide TickProgress;
    VisitOne(start[symbol], orders[symbol], todo, symbol, tick, id, queue'[|queue|..], requests'[|requests|..]);
  }

  lemma LoopMoves(start: map<Symbol, Book>, orders: map<Symbol, Book>, todo: set<Id>, symbol: Symbol, tick: real,
                  id: Id, queue: seq<Job>, queue': seq<Job>,
                  requests: seq<(Order, real)>, requests': seq<(Order, real)>)
    requires TickLoop(start, orders, todo, symbol, tick, queue, queue', requests, requests') && id in todo
    requires symbol in orders && id in orders[symbol]
    ensures TickLoop(start, orders[symbol := NextBook(orders[symbol], id, tick)], todo - {id}, symbol, tick,
                     queue, queue' + JobsOf(EvaluateEntry(orders[symbol][id], tick)),
                     requests, requests' + RequestsOf(orders[symbol][id], tick))
  {
    hide TickProgress, NextBook, EvaluateEntry, JobsOf, RequestsOf;
    var entry, next := orders[symbol][id], NextBook(orders[symbol], id, tick);
    VisitOne(start[symbol], orders[symbol], todo, symbol, tick, id, queue'[|queue|..], requests'[|requests|..]);
    assert orders[symbol := next] == start[symbol := next];
    GainedMore(queue, queue', queue' + JobsOf(EvaluateEntry(entry, tick)));
    GainedMore(requests, requests', requests' + RequestsOf(entry, tick));
    assert (queue' + JobsOf(EvaluateEntry(entry, tick)))[|queue'|..] == JobsOf(EvaluateEntry(entry, tick));
    assert (requests' + RequestsOf(entry, tick))[|requests'|..] == RequestsOf(entry, tick);
  }

  lemma LoopEnds(start: map<Symbol, Book>, orders: map<Symbol, Book>, symbol: Symbol, tick: real,
                 queue: seq<Job>, queue': seq<Job>, requests: seq<(Order, real)>, requests': seq<(Order, real)>)
    requires TickLoop(start, orders, {}, symbol, tick, queue, queue', requests, requests')
    ensures symbol in start && orders == start[symbol := TickBook(start[symbol], tick)]
    ensures TickSent(start[symbol], tick, queue, queue', requests, requests')
  {
    hide TickProgress, TickBook, SentFor;
    AllTicked(start[symbol], orders[symbol], symbol, tick, queue'[|queue|..], requests'[|requests|..]);
  }

  lemma TickJobOneMore(book: Book, todo: set<Id>, tick: real, id: Id, j: Job)
    requires id in todo && todo <= book.Keys
    ensures TickJob(book, book.Keys - (todo - {id}), tick, j)
       <==> TickJob(book, book.Keys - todo, tick, j) || EvaluateEntry(book[id], tick).job == Some(j)
  {
    hide EvaluateEntry;
  }

  lemma TickRequestOneMore(book: Book, todo: set<Id>, tick: real, id: Id, q: (Order, real))
    requires id in todo && todo <= book.Keys
    ensures TickRequest(book, book.Keys - (todo - {id}), tick, q)
       <==> TickRequest(book, book.Keys - todo, tick, q) || q in RequestsOf(book[id], tick)
  {
    hide EvaluateEntry;
  }

  lemma AllTicked(book: Book, now: Book, symbol: Symbol, tick: real, sent: seq<Job>, asked: seq<(Order, real)>)
    requires TickProgress(book, now, {}, symbol, tick, sent, asked)
    ensures now == TickBook(book, tick) && SentFor(book, book.Keys, tick, sent, asked)
  {
    hide EvaluateEntry, SentFor;
    assert book.Keys - {} == book.Keys;
    WholeBook(book, now, tick);
  }

  lemma WholeBook(book: Book, now: Book, tick: real)
    requires PartlyTicked(book, now, {}, tick)
    ensures now == TickBook(book, tick)
  {
    hide EvaluateEntry;
    var ticked := TickBook(book, tick);
    assert forall id :: id in now <==> id in ticked;
    assert forall id | id in now :: now[id] == ticked[id];
    assert now == ticked;
  }
}
