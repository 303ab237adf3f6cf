/** The engine's loops, seen from the pipeline: one call of HandleTick, and one reconciliation pass, is a run of the
    pipeline's single-order steps, so every law of the pipeline covers it. */
module EngineRefinement {
  import opened Prelude
  import opened Liquidity
  import opened Domain
  import opened OrderSpec
  import opened EngineSpec
  import opened System
  import opened TradingEngines

  lemma ReachFirst(s: Sys, step: Step, rest: seq<Step>)
    ensures Reach(s, [step] + rest) == Reach(Next(s, step), rest)
  {
    hide Next;
    ReachFurther(s, [step], rest);
    ReachOne(s, step);
  }

  lemma ReachOne(s: Sys, step: Step)
    ensures Reach(s, [step]) == Next(s, step) && Reach(s, []) == s
  {
    hide Next;
    assert [step][..0] == [];
  }

  /** Nothing but engines, jobs and activations changed. */
  predicate SameRest(s: Sys, s': Sys) {
    s'.db == s.db && s'.rows == s.rows && s'.resumptions == s.resumptions && s'.ticks == s.ticks
  }

  lemma ObserveOne(s: Sys, e: nat, symbol: Symbol, id: Id, tick: real)
    requires e in s.engines && symbol in s.engines[e].owned && symbol in s.engines[e].books
    requires id in s.engines[e].books[symbol]
    requires (symbol, tick) in s.ticks
    ensures var book, s' := s.engines[e].books[symbol], Next(s, Observe(e, id, symbol, tick));
            && SameRest(s, s')
            && s'.engines
                 == s.engines[e := s.engines[e].(books := s.engines[e].books[symbol := NextBook(book, id, tick)])]
            && s'.jobs == s.jobs + JobSet(EvaluateEntry(book[id], tick).job)
            && s'.activations == s.activations
                 + (if EvaluateEntry(book[id], tick).activate then {Activation(book[id].order, tick)} else {})
  {
    hide EvaluateEntry;
  }

  lemma NextPartly(book: Book, now: Book, todo: set<Id>, id: Id, tick: real)
    requires PartlyTicked(book, now, todo, tick) && id in todo && todo <= book.Keys
    ensures id in now && now[id] == book[id] && PartlyTicked(book, NextBook(now, id, tick), todo - {id}, tick)
  {
    hide EvaluateEntry;
  }

  /** The visits still to be made, as steps: what the loop leaves is what the steps leave. */
  lemma {:induction false} VisitsAreObservations(s: Sys, e: nat, symbol: Symbol, tick: real, book: Book, todo: set<Id>)
    returns (steps: seq<Step>)
    requires e in s.engines && symbol in s.engines[e].owned && symbol in s.engines[e].books && (symbol, tick) in s.ticks
    requires PartlyTicked(book, s.engines[e].books[symbol], todo, tick) && todo <= book.Keys
    ensures var s' := Reach(s, steps);
            && SameRest(s, s')
            && s'.engines == s.engines[e := s.engines[e].(books := s.engines[e].books[symbol := TickBook(book, tick)])]
            && (forall j :: j in s'.jobs <==> j in s.jobs || TickJob(book, todo, tick, j))
            && (forall a :: a in s'.activations <==>
                a in s.activations || TickRequest(book, todo, tick, (a.met, a.tick)))
    decreases |todo|
  {
    hide EvaluateEntry, Next, PartlyTicked, TickBook;
    if todo == {} {
      steps := [];
      WholeBook(book, s.engines[e].books[symbol], tick);
      assert s.engines[e].books[symbol := s.engines[e].books[symbol]] == s.engines[e].books;
      assert s.engines[e := s.engines[e]] == s.engines;
    } else {
      SomeMember(todo);
      var id :| id in todo;
      var step := Observe(e, id, symbol, tick);
      NextPartly(book, s.engines[e].books[symbol], todo, id, tick);
      ObserveOne(s, e, symbol, id, tick);
      var rest := VisitsAreObservations(Next(s, step), e, symbol, tick, book, todo - {id});
      ReachFirst(s, step, rest);
      steps := [step] + rest;
      BookSetTwice(s.engines, e, symbol, NextBook(s.engines[e].books[symbol], id, tick), TickBook(book, tick));
      forall j
        ensures TickJob(book, todo, tick, j) <==>
          TickJob(book, todo - {id}, tick, j) || j in JobSet(EvaluateEntry(book[id], tick).job)
      {
        JobOfOne(book, todo, id, tick, j);
      }
      forall a: Activation
        ensures TickRequest(book, todo, tick, (a.met, a.tick)) <==>
          (|| TickRequest(book, todo - {id}, tick, (a.met, a.tick))
           || (EvaluateEntry(book[id], tick).activate && a == Activation(book[id].order, tick)))
      {
        RequestOfOne(book, todo, id, tick, a);
      }
    }
  }

  lemma BookSetTwice(engines: map<nat, Engine>, e: nat, symbol: Symbol, first: Book, second: Book)
    requires e in engines
    ensures var once := engines[e := engines[e].(books := engines[e].books[symbol := first])];
            once[e := once[e].(books := once[e].books[symbol := second])]
              == engines[e := engines[e].(books := engines[e].books[symbol := second])]
  {
    assert engines[e].books[symbol := first][symbol := second] == engines[e].books[symbol := second];
  }

  lemma JobOfOne(book: Book, todo: set<Id>, id: Id, tick: real, j: Job)
    requires id in todo && todo <= book.Keys
    ensures TickJob(book, todo, tick, j) <==>
        TickJob(book, todo - {id}, tick, j) || j in JobSet(EvaluateEntry(book[id], tick).job)
  {
    hide EvaluateEntry;
  }

  lemma RequestOfOne(book: Book, todo: set<Id>, id: Id, tick: real, a: Activation)
    requires id in todo && todo <= book.Keys
    ensures TickRequest(book, todo, tick, (a.met, a.tick)) <==>
          (|| TickRequest(book, todo - {id}, tick, (a.met, a.tick))
           || (EvaluateEntry(book[id], tick).activate && a == Activation(book[id].order, tick)))
  {
    hide EvaluateEntry;
  }

  /** One pass of the tick loop over a whole book - the book, the jobs and the activations HandleTick leaves - is
      reached by Observe steps, whatever the order of the visits. */
  lemma TickIsObservations(s: Sys, e: nat, symbol: Symbol, tick: real) returns (steps: seq<Step>)
    requires e in s.engines && symbol in s.engines[e].owned && symbol in s.engines[e].books && (symbol, tick) in s.ticks
    ensures var s', book := Reach(s, steps), s.engines[e].books[symbol];
            && SameRest(s, s')
            && s'.engines == s.engines[e := s.engines[e].(books := s.engines[e].books[symbol := TickBook(book, tick)])]
            && (forall j :: j in s'.jobs <==> j in s.jobs || TickJob(book, book.Keys, tick, j))
            && (forall a :: a in s'.activations <==>
                a in s.activations || TickRequest(book, book.Keys, tick, (a.met, a.tick)))
  {
    var book := s.engines[e].books[symbol];
    AllToVisit(book, tick);
    hide PartlyTicked;
    steps := VisitsAreObservations(s, e, symbol, tick, book, book.Keys);
  }

  lemma AllToVisit(book: Book, tick: real)
    ensures PartlyTicked(book, book, book.Keys, tick)
  {
    hide EvaluateEntry;
  }

  // ---- a reconciliation pass --------------------------------------------------------------------

  /** The rows the pass works on: read before, and filed under their ids. */
  ghost predicate Found(s: Sys, rows: map<Id, Order>) {
    forall id | id in rows :: rows[id].id == id && (Remaining(rows[id]) > 0.0 ==> rows[id] in s.rows)
  }

  lemma TakenIsAdded(s: Sys, e: nat, o: Order)
    requires e in s.engines && TakenIn(s.engines[e], o) != s.engines[e]
    ensures Remaining(o) > 0.0 && TakenIn(s.engines[e], o) == AddOrder(s.engines[e], o)
    ensures o in s.rows ==> Next(s, Deliver(e, o)) == s.(engines := s.engines[e := AddOrder(s.engines[e], o)])
  {
    hide AddOrder;
  }

  lemma SetTwice(s: Sys, e: nat, first: Engine, second: Engine)
    ensures s.engines[e := first][e := second] == s.engines[e := second]
  {}

  /** Taking in the orphans is delivering their rows. */
  lemma {:induction false} OrphansAreDeliveries(s: Sys, e: nat, start: Engine, rows: map<Id, Order>, seen: set<Id>)
    returns (steps: seq<Step>)
    requires e in s.engines && s.engines[e] == WithOrphansIn(start, rows, seen) && seen <= rows.Keys && Found(s, rows)
    ensures Reach(s, steps) == s.(engines := s.engines[e := WithOrphansIn(start, rows, rows.Keys)])
    decreases |rows.Keys - seen|
  {
    hide WithOrphansIn, AddOrder, Orphan, Next, Reach;
    if seen == rows.Keys {
      steps := [];
      ReachOne(s, Evict(e, 0, Symbol("")));
      assert s.engines[e := s.engines[e]] == s.engines;
    } else {
      var id := Missing(rows.Keys, seen);
      OneMoreOrphan(start, rows, seen, id);
      var now := s.engines[e];
      if TakenIn(now, rows[id]) == now {
        steps := OrphansAreDeliveries(s, e, start, rows, seen + {id});
      } else {
        var next := s.(engines := s.engines[e := AddOrder(now, rows[id])]);
        TakenIsAdded(s, e, rows[id]);
        var rest := OrphansAreDeliveries(next, e, start, rows, seen + {id});
        ReachFirst(s, Deliver(e, rows[id]), rest);
        steps := [Deliver(e, rows[id])] + rest;
        SetTwice(s, e, AddOrder(now, rows[id]), WithOrphansIn(start, rows, rows.Keys));
      }
    }
  }

  /** Dropping orders from one book is evicting them. */
  lemma {:induction false} DropsAreEvictions(s: Sys, e: nat, symbol: Symbol, ids: set<Id>) returns (steps: seq<Step>)
    requires e in s.engines && symbol in s.engines[e].books
    ensures Reach(s, steps)
         == s.(engines := s.engines[e := WithBook(s.engines[e], symbol, s.engines[e].books[symbol] - ids)])
    decreases |ids|
  {
    hide Next;
    var book := s.engines[e].books[symbol];
    if ids == {} {
      steps := [];
      assert book - ids == book && s.engines[e].books[symbol := book] == s.engines[e].books;
      assert s.engines[e := s.engines[e]] == s.engines;
    } else {
      SomeMember(ids);
      var id :| id in ids;
      EvictOne(s, e, symbol, id);
      var rest := DropsAreEvictions(Next(s, Evict(e, id, symbol)), e, symbol, ids - {id});
      ReachFirst(s, Evict(e, id, symbol), rest);
      steps := [Evict(e, id, symbol)] + rest;
      assert book - {id} - (ids - {id}) == book - ids;
      assert s.engines[e].books[symbol := book - {id}][symbol := book - ids]
          == s.engines[e].books[symbol := book - ids];
    }
  }

  lemma EvictOne(s: Sys, e: nat, symbol: Symbol, id: Id)
    requires e in s.engines && symbol in s.engines[e].books
    ensures Next(s, Evict(e, id, symbol))
         == s.(engines := s.engines[e := WithBook(s.engines[e], symbol, s.engines[e].books[symbol] - {id})])
  {}

  /** Evicting the ghosts of all owned books. */
  lemma {:induction false} GhostsAreEvicted(s: Sys, e: nat, start: Engine, done: set<Symbol>, pending: set<Id>)
    returns (steps: seq<Step>)
    requires e in s.engines && done <= start.owned && s.engines[e] == Evicted(start, done, pending)
    ensures Reach(s, steps) == s.(engines := s.engines[e := Evicted(start, start.owned, pending)])
    decreases |start.owned - done|
  {
    hide Evicted, Kept, Reach;
    if done == start.owned {
      steps := [];
      ReachOne(s, Evict(e, 0, Symbol("")));
      assert s.engines[e := s.engines[e]] == s.engines;
    } else {
      var symbol := Missing(start.owned, done);
      OneMoreEvicted(start, done, pending, symbol);
      if symbol in s.engines[e].books {
        var book := s.engines[e].books[symbol];
        KeptIsRest(book, pending);
        var first := DropsAreEvictions(s, e, symbol, book.Keys - pending);
        var rest := GhostsAreEvicted(Reach(s, first), e, start, done + {symbol}, pending);
        ReachFurther(s, first, rest);
        steps := first + rest;
      } else {
        steps := GhostsAreEvicted(s, e, start, done + {symbol}, pending);
      }
    }
  }

  lemma KeptIsRest(book: Book, pending: set<Id>)
    ensures book - (book.Keys - pending) == Kept(book, pending)
  {}

  /** The engine became `next`, and the jobs and activations gained what these books sent. */
  ghost predicate Gained(s: Sys, s': Sys, e: nat, next: Engine, start: Engine, symbols: set<Symbol>,
                         latest: map<Symbol, real>)
  {
    && SameRest(s, s') && s'.engines == s.engines[e := next]
    && (forall j :: j in s'.jobs <==> j in s.jobs || EvaluationJob(start, symbols, latest, j))
    && (forall a :: a in s'.activations <==>
        a in s.activations || EvaluationRequest(start, symbols, latest, (a.met, a.tick)))
  }

  /** Evaluating the owned books is one tick pass after the other. */
  lemma {:induction false} EvaluationIsObservations(s: Sys, e: nat, start: Engine, done: set<Symbol>,
                                                    latest: map<Symbol, real>)
    returns (steps: seq<Step>)
    requires e in s.engines && done <= start.owned && s.engines[e] == EvaluatedEngine(start, done, latest)
    requires forall symbol | symbol in latest && symbol in start.owned :: (symbol, latest[symbol]) in s.ticks
    ensures Gained(s, Reach(s, steps), e, EvaluatedEngine(start, start.owned, latest), start, start.owned - done,
                   latest)
    decreases |start.owned - done|
  {
    hide EvaluatedEngine, Reach, Gained, JobAt, RequestAt;
    if done == start.owned {
      steps := [];
      ReachOne(s, Evict(e, 0, Symbol("")));
      NothingGained(s, e, start, latest);
      assert start.owned - done == {};
    } else {
      var symbol := Missing(start.owned, done);
      var first := OneBookObserved(s, e, start, done, symbol, latest);
      var rest := EvaluationIsObservations(Reach(s, first), e, start, done + {symbol}, latest);
      ReachFurther(s, first, rest);
      steps := first + rest;
      GainedMore(s, Reach(s, first), Reach(s, steps), e, start, start.owned - done, symbol, latest,
                 EvaluatedEngine(start, start.owned, latest));
    }
  }

  lemma NothingGained(s: Sys, e: nat, start: Engine, latest: map<Symbol, real>)
    requires e in s.engines
    ensures Gained(s, s, e, s.engines[e], start, {}, latest)
  {
    assert s.engines[e := s.engines[e]] == s.engines;
  }

  lemma GainedMore(s: Sys, middle: Sys, end: Sys, e: nat, start: Engine, symbols: set<Symbol>, symbol: Symbol,
                   latest: map<Symbol, real>, next: Engine)
    requires symbol in symbols && e in s.engines && e in middle.engines && SameRest(s, middle)
    requires middle.engines == s.engines[e := middle.engines[e]]
    requires forall j :: j in middle.jobs <==> j in s.jobs || JobAt(start, symbol, latest, j)
    requires forall a :: a in middle.activations <==>
        a in s.activations || RequestAt(start, symbol, latest, (a.met, a.tick))
    requires Gained(middle, end, e, next, start, symbols - {symbol}, latest)
    ensures Gained(s, end, e, next, start, symbols, latest)
  {
    hide EvaluationJob, EvaluationRequest, JobAt, RequestAt;
    SentOneMoreBook(start, symbols, symbols - {symbol}, symbol, latest);
    assert s.engines[e := middle.engines[e]][e := next] == s.engines[e := next];
  }

  lemma OneBookObserved(s: Sys, e: nat, start: Engine, done: set<Symbol>, symbol: Symbol, latest: map<Symbol, real>)
    returns (steps: seq<Step>)
    requires e in s.engines && s.engines[e] == EvaluatedEngine(start, done, latest)
    requires symbol in start.owned && symbol !in done && (symbol in latest ==> (symbol, latest[symbol]) in s.ticks)
    ensures var s' := Reach(s, steps);
            && SameRest(s, s') && s'.engines == s.engines[e := EvaluatedEngine(start, done + {symbol}, latest)]
            && (forall j :: j in s'.jobs <==> j in s.jobs || JobAt(start, symbol, latest, j))
            && (forall a :: a in s'.activations <==>
                a in s.activations || RequestAt(start, symbol, latest, (a.met, a.tick)))
  {
    hide EvaluatedEngine, TickBook, Reach;
    OneMoreBook(start, done, latest, symbol);
    if symbol in latest && symbol in s.engines[e].books {
      hide TickJob, TickRequest;
      steps := TickIsObservations(s, e, symbol, latest[symbol]);
    } else {
      steps := [];
      ReachOne(s, Evict(e, 0, symbol));
      assert s.engines[e := s.engines[e]] == s.engines;
    }
  }

  lemma SentOneMoreBook(e: Engine, symbols: set<Symbol>, left: set<Symbol>, symbol: Symbol, latest: map<Symbol, real>)
    requires symbol in symbols && left == symbols - {symbol}
    ensures forall j :: EvaluationJob(e, symbols, latest, j) <==>
        EvaluationJob(e, left, latest, j) || JobAt(e, symbol, latest, j)
    ensures forall q :: EvaluationRequest(e, symbols, latest, q) <==>
        EvaluationRequest(e, left, latest, q) || RequestAt(e, symbol, latest, q)
  {
    hide TickJob, TickRequest;
  }

  ghost predicate JobAt(e: Engine, symbol: Symbol, latest: map<Symbol, real>, j: Job) {
    symbol in latest && TickJob(BookOf(e, symbol), BookOf(e, symbol).Keys, latest[symbol], j)
  }

  ghost predicate RequestAt(e: Engine, symbol: Symbol, latest: map<Symbol, real>, q: (Order, real)) {
    symbol in latest && TickRequest(BookOf(e, symbol), BookOf(e, symbol).Keys, latest[symbol], q)
  }

  lemma OneMoreBook(e: Engine, symbols: set<Symbol>, latest: map<Symbol, real>, symbol: Symbol)
    requires symbol !in symbols
    ensures var now, next := EvaluatedEngine(e, symbols, latest), EvaluatedEngine(e, symbols + {symbol}, latest);
            && now.owned == e.owned && (symbol in now.books <==> symbol in e.books)
            && BookOf(now, symbol) == BookOf(e, symbol)
            && next == (if symbol in latest && symbol in now.books
                        then now.(books := now.books[symbol := TickBook(now.books[symbol], latest[symbol])]) else now)
  {
    hide TickBook;
    var now, next := EvaluatedEngine(e, symbols, latest), EvaluatedEngine(e, symbols + {symbol}, latest);
    if symbol in latest && symbol in now.books {
      assert next.books == now.books[symbol := TickBook(now.books[symbol], latest[symbol])];
    } else {
      assert next.books == now.books;
    }
  }

  /** A reconciliation pass - whatever rows it works on, read at some time, and whatever became of its leases since -
      is a run: it delivers the orphans, evicts the ghosts, and, if it recovered an order, lets every owned book meet
      its price. */
  lemma ReconciliationIsRun(s: Sys, e: nat, rows: map<Id, Order>, latest: map<Symbol, real>) returns (steps: seq<Step>)
    requires e in s.engines && Found(s, rows)
    requires forall symbol | symbol in latest && symbol in s.engines[e].owned :: (symbol, latest[symbol]) in s.ticks
    ensures var start, s' := s.engines[e], Reach(s, steps);
            var middle := ReconciledEngine(start, rows);
            && SameRest(s, s')
            && s'.engines == s.engines[e := if AnyOrphan(start, rows)
                                            then EvaluatedEngine(middle, start.owned, latest) else middle]
            && (forall j :: j in s'.jobs <==>
                j in s.jobs || (AnyOrphan(start, rows) && EvaluationJob(middle, start.owned, latest, j)))
            && (forall a :: a in s'.activations <==>
                a in s.activations
                || (AnyOrphan(start, rows) && EvaluationRequest(middle, start.owned, latest, (a.met, a.tick))))
  {
    hide Reach, WithOrphansIn, Evicted, EvaluatedEngine, AnyOrphan, EvaluationJob, EvaluationRequest;
    var start := s.engines[e];
    NoOrphansYet(start, rows);
    var taken := OrphansAreDeliveries(s, e, start, rows, {});
    var full := WithOrphansIn(start, rows, rows.Keys);
    NothingEvicted(full, rows.Keys);
    SameOwned(start, rows);
    var evicted := GhostsAreEvicted(Reach(s, taken), e, full, {}, rows.Keys);
    ReachFurther(s, taken, evicted);
    var middle := ReconciledEngine(start, rows);
    var now := Reach(s, taken + evicted);
    assert now == s.(engines := s.engines[e := middle]);
    if AnyOrphan(start, rows) {
      NothingEvaluatedYet(middle, latest);
      var observed := EvaluationIsObservations(now, e, middle, {}, latest);
      ReachFurther(s, taken + evicted, observed);
      steps := taken + evicted + observed;
      assert middle.owned - {} == middle.owned == start.owned;
      assert s.engines[e := middle][e := EvaluatedEngine(middle, start.owned, latest)]
          == s.engines[e := EvaluatedEngine(middle, start.owned, latest)];
    } else {
      steps := taken + evicted;
    }
  }

  lemma NothingEvaluatedYet(e: Engine, latest: map<Symbol, real>)
    ensures EvaluatedEngine(e, {}, latest) == e
  {
    NothingEvaluated(e, latest, [], []);
  }
}
