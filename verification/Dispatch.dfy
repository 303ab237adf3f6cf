/** What an engine sends out for an entry: every dispatch is the next cumulative quantity after the row it starts
    from. It reaches further than the entry's last dispatch exactly when that row has caught up with it; otherwise
    it repeats an execution sent before, which is what the execution key is there to absorb. */
module Dispatch {
  import opened Prelude
  import opened Liquidity
  import opened Slices
  import opened Domain
  import opened OrderSpec
  import opened Actions
  import opened Reservations
  import opened Steps
  import opened EngineSpec
  import opened System
  import opened Execution
  import opened ExactlyOnce

  type Jobs = set<Job>

  // ---- everything up to an entry's target was sent --------------------------------------------

  /** A job with this execution key was queued at some time. */
  ghost predicate Sent(jobs: Jobs, id: Id, x: real) {
    exists j | j in jobs :: j.orderId == id && j.execution == x
  }

  /** x is c(i), and c(1) .. c(i) were all sent. */
  ghost predicate SentUpTo(jobs: Jobs, o: Order, i: nat, x: real) {
    && x == Cum(o.requested, Depth(o.symbol), i)
    && (forall k: nat | 1 <= k <= i :: Sent(jobs, o.id, Cum(o.requested, Depth(o.symbol), k)))
  }

  ghost predicate Followed(jobs: Jobs, o: Order, x: real) {
    exists i: nat :: SentUpTo(jobs, o, i, x)
  }

  ghost predicate FillsSent(fills: Fills, jobs: Jobs) {
    forall k | k in fills :: Sent(jobs, k.orderId, k.execution)
  }

  ghost predicate EntryFollowed(jobs: Jobs, entry: EngineOrder) {
    Followed(jobs, entry.order, entry.expected)
  }

  ghost predicate EngineFollowed(jobs: Jobs, e: Engine) {
    forall symbol, id | symbol in e.books && id in e.books[symbol] :: EntryFollowed(jobs, e.books[symbol][id])
  }

  ghost predicate AllFollowed(s: Sys) {
    FillsSent(s.db.fills, s.jobs) && forall e | e in s.engines :: EngineFollowed(s.jobs, s.engines[e])
  }

  lemma FollowedGrows(jobs: Jobs, jobs': Jobs, o: Order, o': Order, x: real)
    requires Followed(jobs, o, x) && jobs <= jobs' && SameTerms(o, o')
    ensures Followed(jobs', o', x)
  {
    var i: nat :| SentUpTo(jobs, o, i, x);
    forall k: nat | 1 <= k <= i ensures Sent(jobs', o.id, Cum(o.requested, Depth(o.symbol), k)) {
      var j :| j in jobs && j.orderId == o.id && j.execution == Cum(o.requested, Depth(o.symbol), k);
      assert j in jobs';
    }
    assert SentUpTo(jobs', o', i, x);
  }

  /** What a snapshot says is filled was sent, slice by slice. */
  lemma SnapshotFollowed(s: Sys, o: Order)
    requires Inv(s) && FillsSent(s.db.fills, s.jobs) && SnapshotOk(s.db.orders, s.db.fills, s.ticks, o)
    ensures Followed(s.jobs, o, o.filled)
  {
    hide Shape, Laws, MemoryOk, Sent;
    var row, d := s.db.orders[o.id], Depth(o.symbol);
    assert OnChain(s.db.fills, row);
    IdsMatch(s.db);
    var m: nat :| ChainAt(s.db.fills, row, m);
    assert o.filled == 0.0 ==> o.filled == Cum(o.requested, d, 0);
    var i: nat :| i <= m && o.filled == Cum(o.requested, d, i);
    forall k: nat | 1 <= k <= i ensures Sent(s.jobs, o.id, Cum(o.requested, d, k)) {
      assert ReachedBy(row.requested, d, m, Cum(o.requested, d, k));
      assert FillKey(o.id, Cum(o.requested, d, k)) in s.db.fills;
    }
    assert SentUpTo(s.jobs, o, i, o.filled);
  }

  /** A dispatch sends the next cumulative quantity. */
  lemma NextIsSent(jobs: Jobs, o: Order, i: nat, tick: real)
    requires SentUpTo(jobs, o, i, o.filled) && Remaining(o) > 0.0
    ensures JobFor(o, tick).execution == Cum(o.requested, Depth(o.symbol), i + 1)
    ensures SentUpTo(jobs + {JobFor(o, tick)}, o, i + 1, JobFor(o, tick).execution)
  {
    hide ExecPrice;
    var j := JobFor(o, tick);
    var jobs' := jobs + {j};
    forall k: nat | 1 <= k <= i + 1 ensures Sent(jobs', o.id, Cum(o.requested, Depth(o.symbol), k)) {
      if k == i + 1 {
        assert j in jobs';
      } else {
        var j0 :| j0 in jobs && j0.orderId == o.id && j0.execution == Cum(o.requested, Depth(o.symbol), k);
        assert j0 in jobs';
      }
    }
  }

  lemma TriggerFollowed(jobs: Jobs, entry: EngineOrder, tick: real)
    requires Followed(jobs, entry.order, entry.order.filled)
    ensures var out := Trigger(entry, tick);
            out.entry.Some? ==> EntryFollowed(jobs + JobSet(out.job), out.entry.value)
  {
    hide SentUpTo, ExecPrice;
    if Remaining(entry.order) > 0.0 {
      var i: nat :| SentUpTo(jobs, entry.order, i, entry.order.filled);
      NextIsSent(jobs, entry.order, i, tick);
    }
  }

  lemma EvaluationFollowed(jobs: Jobs, entry: EngineOrder, tick: real)
    requires EntryFollowed(jobs, entry) && Followed(jobs, entry.order, entry.order.filled)
    ensures var out := EvaluateEntry(entry, tick);
            out.entry.Some? ==> EntryFollowed(jobs + JobSet(out.job), out.entry.value)
  {
    hide Followed, Trigger, Crosses, WithinLimit, PriceNow;
    TriggerFollowed(jobs, entry, tick);
    var armed := entry.order.(isActivated := true);
    FollowedGrows(jobs, jobs + {}, entry.order, armed, entry.expected);
    assert jobs + {} == jobs;
  }

  lemma ResumptionFollowed(jobs: Jobs, entry: EngineOrder, met: Order, activated: Order, tick: real)
    requires EntryFollowed(jobs, entry) && SameTerms(entry.order, activated)
    requires Followed(jobs, activated, activated.filled)
    ensures var out := ResumeEntry(entry, met, activated, tick);
            out.entry.Some? ==> EntryFollowed(jobs + JobSet(out.job), out.entry.value)
  {
    hide Followed, Trigger, WithinLimit, PriceNow;
    FollowedGrows(jobs, jobs, entry.order, activated, entry.expected);
    TriggerFollowed(jobs, entry.(order := activated), tick);
    assert jobs + {} == jobs;
  }

  // ---- through every step ---------------------------------------------------------------------

  lemma EngineFollowedGrows(jobs: Jobs, jobs': Jobs, e: Engine)
    requires EngineFollowed(jobs, e) && jobs <= jobs'
    ensures EngineFollowed(jobs', e)
  {
    hide Followed;
    forall symbol, id | symbol in e.books && id in e.books[symbol] ensures EntryFollowed(jobs', e.books[symbol][id]) {
      assert EntryFollowed(jobs, e.books[symbol][id]);
      var o := e.books[symbol][id].order;
      FollowedGrows(jobs, jobs', o, o, e.books[symbol][id].expected);
    }
  }

  lemma FillsSentGrows(fills: Fills, jobs: Jobs, jobs': Jobs)
    requires FillsSent(fills, jobs) && jobs <= jobs'
    ensures FillsSent(fills, jobs')
  {
    forall k | k in fills ensures Sent(jobs', k.orderId, k.execution) {
      var j :| j in jobs && j.orderId == k.orderId && j.execution == k.execution;
      assert j in jobs';
    }
  }

  lemma MemoryChanges(s: Sys, jobs': Jobs, e: nat, engine: Engine)
    requires AllFollowed(s) && s.jobs <= jobs' && EngineFollowed(jobs', engine)
    ensures AllFollowed(s.(engines := s.engines[e := engine], jobs := jobs'))
  {
    hide FillsSent, EngineFollowed;
    FillsSentGrows(s.db.fills, s.jobs, jobs');
    forall i | i in s.engines ensures EngineFollowed(jobs', s.engines[i]) {
      EngineFollowedGrows(s.jobs, jobs', s.engines[i]);
    }
  }

  lemma WithEntryFollowed(jobs: Jobs, e: Engine, symbol: Symbol, id: Id, entry: Option<EngineOrder>)
    requires EngineFollowed(jobs, e) && (entry.Some? ==> EntryFollowed(jobs, entry.value))
    ensures EngineFollowed(jobs, WithEntry(e, symbol, id, entry))
  {
    hide EntryFollowed;
  }

  /** Two snapshots of an order have the same terms. */
  lemma SnapshotsAgree(orders: map<Id, Order>, fills: Fills, ticks: Ticks, a: Order, b: Order)
    requires SnapshotOk(orders, fills, ticks, a) && SnapshotOk(orders, fills, ticks, b) && a.id == b.id
    ensures SameTerms(a, b)
  {
    SameTermsBack(orders[a.id], a);
  }

  lemma AddFollowed(s: Sys, e: nat, row: Order)
    requires Inv(s) && AllFollowed(s) && e in s.engines && row in s.rows
    ensures EngineFollowed(s.jobs, AddOrder(s.engines[e], row))
  {
    hide Shape, Laws, DbOk, FillsSent, Followed, SnapshotOk;
    var engine := s.engines[e];
    SnapshotFollowed(s, row);
    if AddOrder(engine, row) != engine {
      var book := BookOf(engine, row.symbol);
      if row.id in book && book[row.id].state.QUEUED? {
        EntryIn(s, e, row.symbol, row.id);
        SnapshotsAgree(s.db.orders, s.db.fills, s.ticks, book[row.id].order, row);
        assert EntryFollowed(s.jobs, book[row.id]);
        FollowedGrows(s.jobs, s.jobs, book[row.id].order, row, book[row.id].expected);
      }
      WithEntryFollowed(s.jobs, engine, row.symbol, row.id, Some(AddOrder(engine, row).books[row.symbol][row.id]));
    }
  }

  lemma ShrinkFollowed(jobs: Jobs, e: Engine, id: Id, symbol: Symbol)
    requires EngineFollowed(jobs, e)
    ensures EngineFollowed(jobs, RemoveOrder(e, id, symbol)) && EngineFollowed(jobs, LoseLease(e, symbol))
  {
    hide EntryFollowed;
  }

  lemma ApplyFollowed(s: Sys, e: nat, symbol: Symbol, id: Id, out: Outcome)
    requires AllFollowed(s) && e in s.engines
    requires out.entry.Some? ==> EntryFollowed(s.jobs + JobSet(out.job), out.entry.value)
    ensures AllFollowed(Apply(s, e, symbol, id, out))
  {
    hide EntryFollowed, WithEntry, FillsSent;
    EngineFollowedGrows(s.jobs, s.jobs + JobSet(out.job), s.engines[e]);
    WithEntryFollowed(s.jobs + JobSet(out.job), s.engines[e], symbol, id, out.entry);
    hide EngineFollowed;
    MemoryChanges(s, s.jobs + JobSet(out.job), e, WithEntry(s.engines[e], symbol, id, out.entry));
  }

  /** A database step that adds no fill, or only one a queued job names. */
  lemma FillsChange(s: Sys, db': Db)
    requires AllFollowed(s) && forall k | k in db'.fills :: k in s.db.fills || Sent(s.jobs, k.orderId, k.execution)
    ensures AllFollowed(s.(db := db'))
  {
    hide EngineFollowed, Sent;
  }

  lemma DeliveryFollowed(s: Sys, j: Job)
    requires Inv(s) && AllFollowed(s)
    ensures AllFollowed(Next(s, DeliverJob(j)))
  {
    hide Laws, DbOk, MemoryOk, AllFollowed, Cost, PortfolioFilled, PositionFilled, FillEntries;
    if j in s.jobs {
      IdsMatch(s.db);
      FillAllOrNothing(s.db, DtoOf(j));
      hide Shape, ProcessFill;
      assert Sent(s.jobs, j.orderId, j.execution);
      FillsChange(s, ProcessFill(s.db, DtoOf(j)).0);
    }
  }

  lemma DbStepFollowed(s: Sys, step: Step)
    requires Inv(s) && AllFollowed(s) && (step.Service? || step.RunActivation?)
    ensures AllFollowed(Next(s, step))
  {
    hide Laws, DbOk, MemoryOk, AllFollowed, Act, Shape;
    match step
    case Service(a) =>
      if !a.Fill? && !a.ActivateStopLimit? {
        ActIsQuiet(s.db, a);
        FillsChange(s, Act(s.db, a));
      }
    case RunActivation(a) =>
      if a in s.activations {
        var s' := s.(db := OrderSpec.Activate(s.db, a.met.id).0);
        FillsChange(s, s'.db);
        SameFollowed(s', Next(s, step));
      }
  }

  /** Only the fills, the jobs and the books are looked at. */
  lemma SameFollowed(s: Sys, s': Sys)
    requires s'.jobs == s.jobs && s'.engines == s.engines
    requires s'.db.fills == s.db.fills
    ensures AllFollowed(s) ==> AllFollowed(s')
  {
    hide FillsSent, EngineFollowed;
  }

  lemma TickOrRowFollowed(s: Sys, step: Step)
    requires AllFollowed(s) && (step.Tick? || step.ReadRow? || step.Start? || step.Lose? || step.Evict?)
    ensures AllFollowed(Next(s, step))
  {
    hide FillsSent, RemoveOrder, LoseLease, Watchable, EngineFollowed;
    match step
    case Tick(_, _) => SameFollowed(s, Next(s, step));
    case ReadRow(_) => SameFollowed(s, Next(s, step));
    case Start(e, owned) =>
      NothingFollowed(s.jobs, owned);
      MemoryChanges(s, s.jobs, e, Engine(owned, map[]));
    case Lose(e, symbol) =>
      if e in s.engines {
        ShrinkFollowed(s.jobs, s.engines[e], 0, symbol);
        MemoryChanges(s, s.jobs, e, LoseLease(s.engines[e], symbol));
      }
    case Evict(e, id, symbol) =>
      if e in s.engines {
        ShrinkFollowed(s.jobs, s.engines[e], id, symbol);
        MemoryChanges(s, s.jobs, e, RemoveOrder(s.engines[e], id, symbol));
      }
  }

  lemma NothingFollowed(jobs: Jobs, owned: set<Symbol>)
    ensures EngineFollowed(jobs, Engine(owned, map[]))
  {}

  lemma EntryFollowedIn(s: Sys, e: nat, symbol: Symbol, id: Id)
    requires Inv(s) && AllFollowed(s) && HasEntry(s, e, symbol, id)
    ensures var entry := BookOf(s.engines[e], symbol)[id];
            && EntryOk(s.db.orders, s.db.fills, s.ticks, symbol, id, entry)
            && EntryFollowed(s.jobs, entry) && Followed(s.jobs, entry.order, entry.order.filled)
  {
    hide Shape, Laws, DbOk, Followed, SnapshotOk, MemoryOk, FillsSent;
    EntryIn(s, e, symbol, id);
    SnapshotFollowed(s, BookOf(s.engines[e], symbol)[id].order);
    assert EngineFollowed(s.jobs, s.engines[e]);
  }

  lemma ResumptionIn(s: Sys, r: Resumption)
    requires Inv(s) && r in s.resumptions
    ensures ResumptionOk(s.db.orders, s.db.fills, s.ticks, r)
  {
    hide Shape, Laws, DbOk;
  }

  lemma EntryStepFollowed(s: Sys, step: Step)
    requires Inv(s) && AllFollowed(s) && (step.Observe? || step.FailActivation?)
    ensures AllFollowed(Next(s, step))
  {
    hide Inv, AllFollowed, EntryFollowed, Followed, EvaluateEntry, WithEntry;
    match step
    case Observe(e, id, symbol, tick) =>
      if HasEntry(s, e, symbol, id) && (symbol, tick) in s.ticks {
        EntryFollowedIn(s, e, symbol, id);
        var entry := BookOf(s.engines[e], symbol)[id];
        EvaluationFollowed(s.jobs, entry, tick);
        ApplyFollowed(s, e, symbol, id, EvaluateEntry(entry, tick));
        SameFollowed(Apply(s, e, symbol, id, EvaluateEntry(entry, tick)), Next(s, step));
      }
    case FailActivation(e, id, symbol) =>
      if HasEntry(s, e, symbol, id) {
        EntryFollowedIn(s, e, symbol, id);
        var entry := BookOf(s.engines[e], symbol)[id];
        var failed := entry.(order := entry.order.(isActivated := false));
        PutBackFollowed(s.jobs, entry);
        assert s.jobs + {} == s.jobs;
        ApplyFollowed(s, e, symbol, id, Outcome(Some(failed), None, false));
      }
  }

  lemma PutBackFollowed(jobs: Jobs, entry: EngineOrder)
    requires EntryFollowed(jobs, entry)
    ensures EntryFollowed(jobs, entry.(order := entry.order.(isActivated := false)))
  {
    hide Followed;
    FollowedGrows(jobs, jobs, entry.order, entry.order.(isActivated := false), entry.expected);
  }

  lemma ResumeFollowed(s: Sys, e: nat, r: Resumption, attached: bool)
    requires Inv(s) && AllFollowed(s)
    ensures AllFollowed(Next(s, Resume(e, r, attached)))
  {
    hide Inv, AllFollowed, EntryFollowed, Followed, ResumeEntry, WithEntry;
    if r in s.resumptions && e in s.engines && r.met.symbol in s.engines[e].owned {
      if attached && r.met.id in BookOf(s.engines[e], r.met.symbol) {
        var entry := BookOf(s.engines[e], r.met.symbol)[r.met.id];
        AttachedFollowed(s, e, r);
        ApplyFollowed(s, e, r.met.symbol, r.met.id, ResumeEntry(entry, r.met, r.activated, r.tick));
      } else {
        var out := ResumeEntry(EngineOrder(r.met, READY, r.met.filled), r.met, r.activated, r.tick);
        JobsGrow(s, s.jobs + JobSet(out.job));
      }
    }
  }

  lemma JobsGrow(s: Sys, jobs': Jobs)
    requires AllFollowed(s) && s.jobs <= jobs'
    ensures AllFollowed(s.(jobs := jobs'))
  {
    hide FillsSent, EngineFollowed;
    FillsSentGrows(s.db.fills, s.jobs, jobs');
    forall i | i in s.engines ensures EngineFollowed(jobs', s.engines[i]) {
      EngineFollowedGrows(s.jobs, jobs', s.engines[i]);
    }
  }

  lemma AttachedFollowed(s: Sys, e: nat, r: Resumption)
    requires Inv(s) && AllFollowed(s) && r in s.resumptions && HasEntry(s, e, r.met.symbol, r.met.id)
    ensures var entry := BookOf(s.engines[e], r.met.symbol)[r.met.id];
            && Followed(s.jobs, r.activated, r.activated.filled) && SameTerms(entry.order, r.activated)
            && var out := ResumeEntry(entry, r.met, r.activated, r.tick);
            out.entry.Some? ==> EntryFollowed(s.jobs + JobSet(out.job), out.entry.value)
  {
    hide Inv, AllFollowed, EntryFollowed, Followed, ResumeEntry, SnapshotOk, Crossed;
    var entry := BookOf(s.engines[e], r.met.symbol)[r.met.id];
    EntryFollowedIn(s, e, r.met.symbol, r.met.id);
    ResumptionIn(s, r);
    SnapshotsAgree(s.db.orders, s.db.fills, s.ticks, entry.order, r.activated);
    SentIn(s);
    SnapshotFollowed(s, r.activated);
    ResumptionFollowed(s.jobs, entry, r.met, r.activated, r.tick);
  }

  lemma SentIn(s: Sys)
    requires AllFollowed(s)
    ensures FillsSent(s.db.fills, s.jobs)
  {}

  lemma NextFollowed(s: Sys, step: Step)
    requires Inv(s) && AllFollowed(s)
    ensures AllFollowed(Next(s, step))
  {
    hide Next, AllFollowed, Inv;
    match step
    case Service(_) => DbStepFollowed(s, step);
    case RunActivation(_) => DbStepFollowed(s, step);
    case Deliver(e, row) => AddStepFollowed(s, e, row);
    case Observe(_, _, _, _) => EntryStepFollowed(s, step);
    case FailActivation(_, _, _) => EntryStepFollowed(s, step);
    case Resume(e, r, attached) => ResumeFollowed(s, e, r, attached);
    case DeliverJob(j) => DeliveryFollowed(s, j);
    case _ => TickOrRowFollowed(s, step);
  }

  lemma AddStepFollowed(s: Sys, e: nat, row: Order)
    requires Inv(s) && AllFollowed(s)
    ensures AllFollowed(Next(s, Deliver(e, row)))
  {
    hide Inv, AllFollowed, AddOrder, EngineFollowed;
    if e in s.engines && row in s.rows {
      AddFollowed(s, e, row);
      MemoryChanges(s, s.jobs, e, AddOrder(s.engines[e], row));
    }
  }

  /** Whatever an order was filled to, and whatever an engine expects of it, was sent slice by slice. */
  lemma {:induction false} EverythingFollowed(s: Sys, steps: seq<Step>)
    requires Fresh(s)
    ensures AllFollowed(Reach(s, steps)) && Inv(Reach(s, steps))
  {
    hide Next, Inv, AllFollowed;
    PipelineInvariant(s, steps);
    if steps == [] {
      FreshFollowed(s);
    } else {
      EverythingFollowed(s, steps[..|steps| - 1]);
      NextFollowed(Reach(s, steps[..|steps| - 1]), steps[|steps| - 1]);
    }
  }

  lemma FreshFollowed(s: Sys)
    requires Fresh(s)
    ensures AllFollowed(s)
  {}

  // ---- when a dispatch advances ---------------------------------------------------------------

  /** A dispatch for a watched entry: the entry as it was, the row the job is built from, and the job. */
  datatype Dispatch = Dispatch(entry: EngineOrder, row: Order, job: Job)

  function DispatchIn(entry: EngineOrder, row: Order, out: Outcome): Option<Dispatch> {
    match out.job case None => None case Some(j) => Some(Dispatch(entry, row, j))
  }

  /** The dispatch a step makes for an entry of a book. */
  ghost function Dispatched(s: Sys, step: Step): Option<Dispatch> {
    match step
    case Observe(e, id, symbol, tick) =>
      if HasEntry(s, e, symbol, id) && (symbol, tick) in s.ticks then
        var entry := BookOf(s.engines[e], symbol)[id];
        DispatchIn(entry, entry.order, EvaluateEntry(entry, tick))
      else None
    case Resume(e, r, attached) =>
      if attached && r in s.resumptions && HasEntry(s, e, r.met.symbol, r.met.id) then
        var entry := BookOf(s.engines[e], r.met.symbol)[r.met.id];
        DispatchIn(entry, r.activated, ResumeEntry(entry, r.met, r.activated, r.tick))
      else None
    case _ => None
  }

  lemma AdvanceOrRepeat(jobs: Jobs, o: Order, expected: real, tick: real)
    requires Followed(jobs, o, expected) && Followed(jobs, o, o.filled) && Remaining(o) > 0.0 && o.requested > 0.0
    ensures JobFor(o, tick).execution > expected <==> expected <= o.filled
    ensures JobFor(o, tick).execution <= expected ==> Sent(jobs, o.id, JobFor(o, tick).execution)
  {
    hide ExecPrice, Sent;
    var a: nat :| SentUpTo(jobs, o, a, expected);
    var i: nat :| SentUpTo(jobs, o, i, o.filled);
    NextIsSent(jobs, o, i, tick);
    CumMonotone(o.requested, Depth(o.symbol), i, i + 1);
    if a <= i {
      CumMonotone(o.requested, Depth(o.symbol), a, i);
    } else {
      CumMonotone(o.requested, Depth(o.symbol), i + 1, a);
    }
  }

  lemma RequestedPositive(s: Sys, o: Order)
    requires Inv(s) && SnapshotOk(s.db.orders, s.db.fills, s.ticks, o)
    ensures o.requested > 0.0
  {
    hide Laws, DbOk, MemoryOk, Point, Crossed;
    OrderShape(s.db, o.id);
  }

  lemma JobOfEvaluation(entry: EngineOrder, tick: real)
    requires EvaluateEntry(entry, tick).job.Some?
    ensures EvaluateEntry(entry, tick).job == Some(JobFor(entry.order, tick)) && Remaining(entry.order) > 0.0
  {
    hide ExecPrice, Crosses, WithinLimit;
  }

  lemma JobOfResumption(entry: EngineOrder, met: Order, activated: Order, tick: real)
    requires ResumeEntry(entry, met, activated, tick).job.Some?
    ensures ResumeEntry(entry, met, activated, tick).job == Some(JobFor(activated, tick)) && Remaining(activated) > 0.0
  {
    hide ExecPrice, WithinLimit;
  }

  /** What a dispatch is built from: everything up to it was sent, and a resumption starts from nothing filled. */
  ghost predicate Built(s: Sys, d: Dispatch, tick: real) {
    && d.job == JobFor(d.row, tick) && Remaining(d.row) > 0.0 && d.row.requested > 0.0
    && Followed(s.jobs, d.row, d.entry.expected) && Followed(s.jobs, d.row, d.row.filled)
  }

  lemma TickDispatch(s: Sys, e: nat, id: Id, symbol: Symbol, tick: real)
    requires Inv(s) && AllFollowed(s) && Dispatched(s, Observe(e, id, symbol, tick)).Some?
    ensures Built(s, Dispatched(s, Observe(e, id, symbol, tick)).value, tick)
    ensures Dispatched(s, Observe(e, id, symbol, tick)).value.job in Next(s, Observe(e, id, symbol, tick)).jobs
  {
    hide Inv, AllFollowed, Followed, EvaluateEntry, WithEntry, JobFor, SnapshotOk;
    var entry := BookOf(s.engines[e], symbol)[id];
    EntryFollowedIn(s, e, symbol, id);
    RequestedPositive(s, entry.order);
    JobOfEvaluation(entry, tick);
  }

  lemma ResumptionDispatch(s: Sys, e: nat, r: Resumption)
    requires Inv(s) && AllFollowed(s) && Dispatched(s, Resume(e, r, true)).Some?
    ensures Built(s, Dispatched(s, Resume(e, r, true)).value, r.tick)
    ensures Dispatched(s, Resume(e, r, true)).value.job in Next(s, Resume(e, r, true)).jobs
    ensures Dispatched(s, Resume(e, r, true)).value.row.filled == 0.0
  {
    hide Inv, AllFollowed, Followed, ResumeEntry, WithEntry, JobFor, SnapshotOk, Crossed, EntryFollowed;
    var entry := BookOf(s.engines[e], r.met.symbol)[r.met.id];
    EntryFollowedIn(s, e, r.met.symbol, r.met.id);
    ResumptionIn(s, r);
    AttachedFollowed(s, e, r);
    RequestedPositive(s, r.activated);
    JobOfResumption(entry, r.met, r.activated, r.tick);
    TargetOf(s.jobs, entry, r.activated);
  }

  lemma TargetOf(jobs: Jobs, entry: EngineOrder, o: Order)
    requires EntryFollowed(jobs, entry) && SameTerms(entry.order, o)
    ensures Followed(jobs, o, entry.expected)
  {
    hide Followed;
    FollowedGrows(jobs, jobs, entry.order, o, entry.expected);
  }

  /** In every run, a dispatch for a watched entry reaches further than the entry's last one exactly when the row it
      is built from has caught up with that; if not, the engines sent this very execution before. A resumption is
      built from a row with nothing filled, so it advances only for an entry that expects nothing. */
  lemma DispatchAdvancesExactly(s: Sys, steps: seq<Step>, step: Step)
    requires Fresh(s) && Dispatched(Reach(s, steps), step).Some?
    ensures var now, d := Reach(s, steps), Dispatched(Reach(s, steps), step).value;
            && d.job in Next(now, step).jobs
            && (d.job.execution > d.entry.expected <==> d.entry.expected <= d.row.filled)
            && (d.job.execution <= d.entry.expected ==> Sent(now.jobs, d.job.orderId, d.job.execution))
            && (step.Resume? ==> d.row.filled == 0.0)
  {
    hide Reach, Inv, AllFollowed, Followed, Sent, Next, JobFor, EvaluateEntry, ResumeEntry;
    EverythingFollowed(s, steps);
    var now := Reach(s, steps);
    var d := Dispatched(now, step).value;
    if step.Observe? {
      TickDispatch(now, step.engine, step.id, step.symbol, step.tick);
      AdvanceOrRepeat(now.jobs, d.row, d.entry.expected, step.tick);
      JobNames(d.row, step.tick);
    } else {
      ResumptionDispatch(now, step.engine, step.resumption);
      AdvanceOrRepeat(now.jobs, d.row, d.entry.expected, step.resumption.tick);
      JobNames(d.row, step.resumption.tick);
    }
  }

  lemma JobNames(o: Order, tick: real)
    ensures JobFor(o, tick).orderId == o.id
  {}

  // ---- when entries stop being sound ------------------------------------------------------------

  ghost predicate EngineSound(e: Engine) {
    forall symbol, id | symbol in e.books && id in e.books[symbol] :: Sound(e.books[symbol][id])
  }

  ghost predicate AllSound(s: Sys) {
    forall e | e in s.engines :: EngineSound(s.engines[e])
  }

  /** The entry caught up, and then a late resumption outside the limit puts the activated row back under it. */
  ghost predicate SetsBack(s: Sys, step: Step) {
    && step.Resume? && step.attached && step.resumption in s.resumptions
    && var r := step.resumption;
    && HasEntry(s, step.engine, r.met.symbol, r.met.id)
    && BookOf(s.engines[step.engine], r.met.symbol)[r.met.id].state.READY?
    && BookOf(s.engines[step.engine], r.met.symbol)[r.met.id].expected > 0.0
    && !WithinLimit(r.met, PriceNow(r.met, r.tick))
  }

  /** Every step keeps every entry sound, except exactly such a resumption. */
  lemma SoundExactly(s: Sys, steps: seq<Step>, step: Step)
    requires Fresh(s) && AllSound(Reach(s, steps))
    ensures AllSound(Next(Reach(s, steps), step)) <==> !SetsBack(Reach(s, steps), step)
  {
    hide Reach, Inv;
    PipelineInvariant(s, steps);
    StepSound(Reach(s, steps), step);
  }

  lemma SetSound(s: Sys, e: nat, engine: Engine)
    requires AllSound(s)
    ensures AllSound(s.(engines := s.engines[e := engine])) <==> EngineSound(engine)
  {
    hide EngineSound;
    var s' := s.(engines := s.engines[e := engine]);
    assert s'.engines[e] == engine;
  }

  lemma WithEntrySound(e: Engine, symbol: Symbol, id: Id, entry: Option<EngineOrder>)
    requires EngineSound(e)
    ensures EngineSound(WithEntry(e, symbol, id, entry)) <==> (entry.Some? ==> Sound(entry.value))
  {
    hide Sound;
    if entry.Some? { assert WithEntry(e, symbol, id, entry).books[symbol][id] == entry.value; }
  }

  lemma ApplySound(s: Sys, e: nat, symbol: Symbol, id: Id, out: Outcome)
    requires AllSound(s) && e in s.engines
    ensures AllSound(Apply(s, e, symbol, id, out)) <==> (out.entry.Some? ==> Sound(out.entry.value))
  {
    hide EngineSound, WithEntry, Sound;
    var engine := WithEntry(s.engines[e], symbol, id, out.entry);
    WithEntrySound(s.engines[e], symbol, id, out.entry);
    SetSound(s, e, engine);
    SameEngines(s.(engines := s.engines[e := engine]), Apply(s, e, symbol, id, out));
  }

  lemma SameEngines(s: Sys, s': Sys)
    requires s'.engines == s.engines
    ensures AllSound(s') <==> AllSound(s)
  {
    hide EngineSound;
  }

  lemma ShrunkSound(e: Engine, id: Id, symbol: Symbol)
    requires EngineSound(e)
    ensures EngineSound(RemoveOrder(e, id, symbol)) && EngineSound(LoseLease(e, symbol))
  {
    hide Sound;
  }

  lemma AddSound(e: Engine, o: Order)
    requires EngineSound(e)
    ensures EngineSound(AddOrder(e, o))
  {
    if AddOrder(e, o) != e {
      RowNeverStepsBack(if o.id in BookOf(e, o.symbol) then e
                        else WithEntry(e, o.symbol, o.id, Some(EngineOrder(o, READY, o.filled))), o);
      WithEntrySound(e, o.symbol, o.id, Some(AddOrder(e, o).books[o.symbol][o.id]));
    }
  }

  lemma StepSound(s: Sys, step: Step)
    requires Inv(s) && AllSound(s)
    ensures AllSound(Next(s, step)) <==> !SetsBack(s, step)
  {
    hide Inv, AllSound, EngineSound, AddOrder, RemoveOrder, LoseLease, EvaluateEntry, ResumeEntry, WithEntry, Sound;
    hide Act, ProcessFill;
    match step
    case Deliver(e, row) =>
      if e in s.engines && row in s.rows { AddEngineSound(s, e, row); }
    case Lose(e, symbol) => ShrinkSound(s, e, 0, symbol);
    case Evict(e, id, symbol) => ShrinkSound(s, e, id, symbol);
    case Start(e, owned) =>
      SetSound(s, e, Engine(owned, map[]));
      assert EngineSound(Engine(owned, map[])) by { EmptySound(owned); }
    case Observe(e, id, symbol, tick) =>
      if HasEntry(s, e, symbol, id) && (symbol, tick) in s.ticks {
        var entry := BookOf(s.engines[e], symbol)[id];
        SoundIn(s, e, symbol, id);
        SoundTickAdvances(entry, tick);
        ApplySound(s, e, symbol, id, EvaluateEntry(entry, tick));
        SameEngines(Apply(s, e, symbol, id, EvaluateEntry(entry, tick)), Next(s, step));
      }
    case FailActivation(e, id, symbol) =>
      if HasEntry(s, e, symbol, id) {
        var entry := BookOf(s.engines[e], symbol)[id];
        SoundIn(s, e, symbol, id);
        PutBackSound(entry);
        ApplySound(s, e, symbol, id, Outcome(Some(entry.(order := entry.order.(isActivated := false))), None, false));
      }
    case Resume(e, r, attached) => ResumeSound(s, e, r, attached);
    case _ => SameEngines(s, Next(s, step));
  }

  lemma EmptySound(owned: set<Symbol>)
    ensures EngineSound(Engine(owned, map[]))
  {}

  lemma PutBackSound(entry: EngineOrder)
    requires Sound(entry)
    ensures Sound(entry.(order := entry.order.(isActivated := false)))
  {}

  lemma SoundIn(s: Sys, e: nat, symbol: Symbol, id: Id)
    requires AllSound(s) && HasEntry(s, e, symbol, id)
    ensures Sound(BookOf(s.engines[e], symbol)[id])
  {
    hide Sound;
    assert EngineSound(s.engines[e]);
  }

  lemma AddEngineSound(s: Sys, e: nat, row: Order)
    requires AllSound(s) && e in s.engines
    ensures AllSound(s.(engines := s.engines[e := AddOrder(s.engines[e], row)]))
  {
    hide EngineSound, AddOrder;
    AddSound(s.engines[e], row);
    SetSound(s, e, AddOrder(s.engines[e], row));
  }

  lemma ShrinkSound(s: Sys, e: nat, id: Id, symbol: Symbol)
    requires AllSound(s)
    ensures AllSound(Next(s, Lose(e, symbol))) && AllSound(Next(s, Evict(e, id, symbol)))
  {
    hide EngineSound, RemoveOrder, LoseLease;
    if e in s.engines {
      ShrunkSound(s.engines[e], id, symbol);
      SetSound(s, e, LoseLease(s.engines[e], symbol));
      SetSound(s, e, RemoveOrder(s.engines[e], id, symbol));
    }
  }

  lemma ResumedSound(entry: EngineOrder, met: Order, activated: Order, tick: real)
    requires Sound(entry) && activated.filled == 0.0 && activated.requested > 0.0 && entry.order.filled >= 0.0
    ensures var out := ResumeEntry(entry, met, activated, tick);
            (out.entry.Some? ==> Sound(out.entry.value))
              <==> !(entry.state.READY? && entry.expected > 0.0 && !WithinLimit(met, PriceNow(met, tick)))
  {
    hide ExecPrice, WithinLimit;
  }

  lemma ResumeSound(s: Sys, e: nat, r: Resumption, attached: bool)
    requires Inv(s) && AllSound(s)
    ensures AllSound(Next(s, Resume(e, r, attached))) <==> !SetsBack(s, Resume(e, r, attached))
  {
    hide Inv, AllSound, ResumeEntry, WithEntry, Sound, PriceNow, WithinLimit, SnapshotOk, Crossed;
    if attached && r in s.resumptions && HasEntry(s, e, r.met.symbol, r.met.id) {
      var entry := BookOf(s.engines[e], r.met.symbol)[r.met.id];
      SoundIn(s, e, r.met.symbol, r.met.id);
      ResumptionIn(s, r);
      RequestedPositive(s, r.activated);
      EntryNotNegative(s, e, r.met.symbol, r.met.id);
      ResumedSound(entry, r.met, r.activated, r.tick);
      ApplySound(s, e, r.met.symbol, r.met.id, ResumeEntry(entry, r.met, r.activated, r.tick));
    } else {
      SameEngines(s, Next(s, Resume(e, r, attached)));
    }
  }

  lemma EntryNotNegative(s: Sys, e: nat, symbol: Symbol, id: Id)
    requires Inv(s) && HasEntry(s, e, symbol, id)
    ensures BookOf(s.engines[e], symbol)[id].order.filled >= 0.0
  {
    hide Shape, Laws, MemoryOk, Chains, FillOk, Crossed;
    EntryIn(s, e, symbol, id);
    var o := BookOf(s.engines[e], symbol)[id].order;
    if o.filled != 0.0 { PointNotNegative(s, id, o.filled); }
  }

  lemma PointNotNegative(s: Sys, id: Id, x: real)
    requires Inv(s) && id in s.db.orders && FillKey(id, x) in s.db.fills
    ensures x >= 0.0
  {
    hide Laws, MemoryOk, FillOk, Crossed;
    var o := s.db.orders[id];
    OrderShape(s.db, id);
    hide Shape;
    assert OnChain(s.db.fills, o);
    var m: nat :| ChainAt(s.db.fills, o, m);
    assert ReachedBy(o.requested, Depth(o.symbol), m, x);
    var k: nat :| 1 <= k <= m && x == Cum(o.requested, Depth(o.symbol), k);
    CumBounds(o.requested, Depth(o.symbol), k);
  }

  /** A run without such a resumption: all entries stay sound, and every tick that dispatches advances. */
  lemma {:induction false} SoundWithoutSetback(s: Sys, steps: seq<Step>)
    requires Fresh(s) && forall i | 0 <= i < |steps| :: !SetsBack(Reach(s, steps[..i]), steps[i])
    ensures AllSound(Reach(s, steps))
  {
    hide Next, SetsBack, EngineSound;
    if steps != [] {
      var before := steps[..|steps| - 1];
      forall i | 0 <= i < |before| ensures !SetsBack(Reach(s, before[..i]), before[i]) {
        assert before[..i] == steps[..i];
      }
      SoundWithoutSetback(s, before);
      SoundExactly(s, before, steps[|steps| - 1]);
      assert !SetsBack(Reach(s, steps[..|steps| - 1]), steps[|steps| - 1]);
    }
  }

  // ---- after a lease is lost ----------------------------------------------------------------------

  ghost predicate Relinquished(s: Sys, e: nat, symbol: Symbol) {
    e in s.engines ==> symbol !in s.engines[e].owned && symbol !in s.engines[e].books
  }

  predicate Restarts(step: Step, e: nat) {
    step.Start? && step.engine == e
  }

  lemma NextKeepsRelinquished(s: Sys, step: Step, e: nat, symbol: Symbol)
    requires Relinquished(s, e, symbol) && !Restarts(step, e)
    ensures Relinquished(Next(s, step), e, symbol)
  {
    hide EvaluateEntry, ResumeEntry, Act, ProcessFill;
  }

  lemma {:induction false} StaysRelinquished(s: Sys, more: seq<Step>, e: nat, symbol: Symbol)
    requires Relinquished(s, e, symbol) && forall step | step in more :: !Restarts(step, e)
    ensures Relinquished(Reach(s, more), e, symbol)
  {
    hide Next, Relinquished;
    if more != [] {
      StaysRelinquished(s, more[..|more| - 1], e, symbol);
      NextKeepsRelinquished(Reach(s, more[..|more| - 1]), more[|more| - 1], e, symbol);
    }
  }

  /** A step of this engine: the only ones that queue jobs. */
  predicate StepOf(step: Step, e: nat) {
    (step.Observe? || step.Resume?) && step.engine == e
  }

  lemma NewJobSymbol(s: Sys, step: Step, e: nat, symbol: Symbol, j: Job)
    requires Inv(s) && Relinquished(s, e, symbol) && StepOf(step, e)
    requires j in Next(s, step).jobs && j !in s.jobs
    ensures j.orderId in s.db.orders && s.db.orders[j.orderId].symbol != symbol
  {
    hide Inv, EvaluateEntry, ResumeEntry, WithEntry, Crossed, Point;
    if step.Observe? {
      var entry := BookOf(s.engines[e], step.symbol)[step.id];
      FiledEntry(s, e, step.symbol, step.id);
      JobOfEvaluation(entry, step.tick);
    } else {
      var r := step.resumption;
      ResumptionIn(s, r);
      var entry := if step.attached && r.met.id in BookOf(s.engines[e], r.met.symbol)
        then BookOf(s.engines[e], r.met.symbol)[r.met.id] else EngineOrder(r.met, READY, r.met.filled);
      JobOfResumption(entry, r.met, r.activated, r.tick);
    }
  }

  lemma FiledEntry(s: Sys, e: nat, symbol: Symbol, id: Id)
    requires Inv(s) && HasEntry(s, e, symbol, id)
    ensures EntryOk(s.db.orders, s.db.fills, s.ticks, symbol, id, BookOf(s.engines[e], symbol)[id])
  {
    hide Shape, Laws, DbOk, MemoryOk, EntryOk;
    EntryIn(s, e, symbol, id);
  }

  /** Losing a lease is for good: until the engine is started again it takes no order of the symbol in and sends no
      job for one, whatever activations or ticks are still on their way to it. */
  lemma LostSymbolIsSilent(s: Sys, steps: seq<Step>, more: seq<Step>, e: nat, symbol: Symbol, step: Step)
    requires Fresh(s) && StepOf(step, e) && forall m | m in more :: !Restarts(m, e)
    ensures var now := Reach(s, steps + [Lose(e, symbol)] + more);
            && Relinquished(now, e, symbol)
            && (forall j | j in Next(now, step).jobs && j !in now.jobs ::
                  j.orderId in now.db.orders && now.db.orders[j.orderId].symbol != symbol)
  {
    hide Inv, Reach, Next, Relinquished;
    var before := Reach(s, steps);
    ReachFurther(s, steps, [Lose(e, symbol)]);
    ReachOne(before, Lose(e, symbol));
    ReachFurther(s, steps + [Lose(e, symbol)], more);
    LoseRelinquishes(before, e, symbol);
    StaysRelinquished(Next(before, Lose(e, symbol)), more, e, symbol);
    var now := Reach(s, steps + [Lose(e, symbol)] + more);
    PipelineInvariant(s, steps + [Lose(e, symbol)] + more);
    forall j | j in Next(now, step).jobs && j !in now.jobs
      ensures j.orderId in now.db.orders && now.db.orders[j.orderId].symbol != symbol
    {
      NewJobSymbol(now, step, e, symbol, j);
    }
  }

  lemma ReachOne(s: Sys, step: Step)
    ensures Reach(s, [step]) == Next(s, step)
  {
    hide Next;
    assert [step][..0] == [];
    assert Reach(s, []) == s;
  }

  lemma LoseRelinquishes(s: Sys, e: nat, symbol: Symbol)
    ensures Relinquished(Next(s, Lose(e, symbol)), e, symbol)
  {}
}
