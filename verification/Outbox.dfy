/** The transactional outbox: rows are claimed for a minute at a time, published outside any transaction, and
    acknowledged or scheduled for another attempt. Time is in milliseconds. */
module Outbox {
  import opened Prelude

  type EventId = nat
  type WorkerId = int

  const MINUTE: int := 60000
  const MAX_RETRIES: nat := 5
  const BATCH_SIZE: nat := 50

  datatype EventStatus = PENDING | PUBLISHED | FAILED

  datatype Row = Row(status: EventStatus, attempts: nat, nextRetryAt: Option<int>)

  /** The claim query takes what is not published and not scheduled for later; NULL counts as due. */
  predicate Claimable(row: Row, now: int) {
    !row.status.PUBLISHED? && (row.nextRetryAt.None? || row.nextRetryAt.value <= now)
  }

  function Claimed(row: Row, now: int): Row {
    row.(nextRetryAt := Some(now + MINUTE))
  }

  function Power2(n: nat): nat {
    if n == 0 then 1 else 2 * Power2(n - 1)
  }

  /** A failed attempt: backed off exponentially, and without a date once the retries are used up. */
  function AfterFailure(row: Row, attempts: nat, now: int): Row {
    Row(FAILED, attempts, if attempts >= MAX_RETRIES then None else Some(now + Power2(attempts) * 1000))
  }

  /** An event in the hands of a worker since it claimed it; attempts is what the claim returned. */
  datatype Hold = Hold(worker: WorkerId, event: EventId, since: int, attempts: nat, added: bool)

  datatype World = World(now: int, rows: map<EventId, Row>, holds: set<Hold>, queued: set<EventId>)

  datatype Step =
    | Pass(ms: nat)
    | Create(event: EventId)
    | Claim(worker: WorkerId, events: set<EventId>)
    | Add(hold: Hold)
    | Acknowledge(hold: Hold)
    | AcknowledgeUnheard(hold: Hold)   // the final update is committed, but its answer is lost
    | Fail(hold: Hold)
    | Die(hold: Hold)

  function NewHolds(w: World, worker: WorkerId, events: set<EventId>): set<Hold>
    requires events <= w.rows.Keys
  {
    set e | e in events :: Hold(worker, e, w.now, w.rows[e].attempts, false)
  }

  /** Locked rows are skipped, so a claim may take any of the due rows, at most a batch. */
  predicate MayClaim(w: World, events: set<EventId>) {
    && events <= w.rows.Keys && |events| <= BATCH_SIZE
    && forall e | e in events :: Claimable(w.rows[e], w.now)
  }

  function Next(w: World, step: Step): World {
    match step
    case Pass(ms) => w.(now := w.now + ms)
    case Create(e) => if e in w.rows then w else w.(rows := w.rows[e := Row(PENDING, 0, None)])
    case Claim(worker, events) =>
      if MayClaim(w, events) then
        w.(rows := map e | e in w.rows :: if e in events then Claimed(w.rows[e], w.now) else w.rows[e],
           holds := w.holds + NewHolds(w, worker, events))
      else w
    case Add(h) =>
      if h in w.holds then w.(queued := w.queued + {h.event}, holds := w.holds - {h} + {h.(added := true)}) else w
    case Acknowledge(h) =>
      if h in w.holds && h.added && h.event in w.rows then
        w.(rows := w.rows[h.event := w.rows[h.event].(status := PUBLISHED)], holds := w.holds - {h})
      else w
    case AcknowledgeUnheard(h) =>
      if h in w.holds && h.added && h.event in w.rows then
        w.(rows := w.rows[h.event := w.rows[h.event].(status := PUBLISHED)])
      else w
    case Fail(h) =>
      if h in w.holds && h.event in w.rows then
        w.(rows := w.rows[h.event := AfterFailure(w.rows[h.event], h.attempts + 1, w.now)], holds := w.holds - {h})
      else w
    case Die(h) => w.(holds := w.holds - {h})
  }

  ghost function Run(w: World, steps: seq<Step>): World {
    if steps == [] then w else Next(Run(w, steps[..|steps| - 1]), steps[|steps| - 1])
  }

  predicate Start(w: World) {
    w.rows == map[] && w.holds == {} && w.queued == {}
  }

  /** A claim schedules its rows a minute ahead, and changes nothing else of any row. */
  lemma ClaimSchedules(w: World, worker: WorkerId, events: set<EventId>, e: EventId)
    requires MayClaim(w, events) && e in w.rows
    ensures var w' := Next(w, Claim(worker, events));
            && e in w'.rows
            && w'.rows[e] == if e in events then w.rows[e].(nextRetryAt := Some(w.now + 60000)) else w.rows[e]
  {}

  // ---- published only after being queued -------------------------------------------------------

  ghost predicate QueuedFirst(w: World) {
    && (forall e | e in w.rows && w.rows[e].status.PUBLISHED? :: e in w.queued)
    && (forall h | h in w.holds :: h.event in w.rows && (h.added ==> h.event in w.queued))
  }

  lemma NextKeepsQueuedFirst(w: World, step: Step)
    requires QueuedFirst(w)
    ensures QueuedFirst(Next(w, step))
  {}

  /** In every run, however slow or dead the workers, an event is PUBLISHED only after its job was queued. */
  lemma {:induction false} PublishedAfterQueued(w: World, steps: seq<Step>)
    requires Start(w)
    ensures QueuedFirst(Run(w, steps))
  {
    hide Next;
    if steps != [] {
      PublishedAfterQueued(w, steps[..|steps| - 1]);
      NextKeepsQueuedFirst(Run(w, steps[..|steps| - 1]), steps[|steps| - 1]);
    }
  }

  // ---- one holder --------------------------------------------------------------------------------

  predicate Published(w: World, e: EventId) {
    e in w.rows && w.rows[e].status.PUBLISHED?
  }

  /** A held row stays scheduled until the minute is over. */
  ghost predicate OneHolder(w: World) {
    && (forall h, k | h in w.holds && k in w.holds && h.event == k.event :: h == k)
    && (forall h | h in w.holds :: h.event in w.rows && w.rows[h.event].nextRetryAt == Some(h.since + MINUTE))
  }

  /** While an event has one holder it can be claimed again exactly once that claim is a minute old, unless it is
      published by then. */
  lemma HeldIsDueExactly(w: World, h: Hold)
    requires OneHolder(w) && h in w.holds
    ensures MayClaim(w, {h.event}) <==> !Published(w, h.event) && w.now >= h.since + 60000
  {
    assert w.rows[h.event].nextRetryAt == Some(h.since + MINUTE);
  }

  /** A claim that takes an event whose claimant, of a minute ago or more, is still at work. */
  ghost predicate Overtakes(w: World, step: Step) {
    && step.Claim? && MayClaim(w, step.events)
    && exists h | h in w.holds :: h.event in step.events && w.now >= h.since + MINUTE
  }

  lemma OneHolderStepExactly(w: World, step: Step)
    requires OneHolder(w)
    ensures OneHolder(Next(w, step)) <==> !Overtakes(w, step)
  {
    if step.Claim? && MayClaim(w, step.events) {
      if Overtakes(w, step) {
        var h :| h in w.holds && h.event in step.events && w.now >= h.since + MINUTE;
        var k := Hold(step.worker, h.event, w.now, w.rows[h.event].attempts, false);
        assert k in NewHolds(w, step.worker, step.events);
        assert h in Next(w, step).holds && k in Next(w, step).holds && h.since != k.since;
      } else {
        NothingHeldIsClaimed(w, step.worker, step.events);
      }
    }
  }

  lemma NothingHeldIsClaimed(w: World, worker: WorkerId, events: set<EventId>)
    requires OneHolder(w) && MayClaim(w, events) && !Overtakes(w, Claim(worker, events))
    ensures OneHolder(Next(w, Claim(worker, events)))
  {
    forall h | h in w.holds ensures h.event !in events {
      assert w.rows[h.event].nextRetryAt == Some(h.since + MINUTE);
      assert h.event in events ==> Claimable(w.rows[h.event], w.now);
    }
  }

  ghost predicate AlwaysOneHolder(w: World, steps: seq<Step>) {
    OneHolder(Run(w, steps)) && (steps != [] ==> AlwaysOneHolder(w, steps[..|steps| - 1]))
  }

  ghost predicate NeverOvertaken(w: World, steps: seq<Step>) {
    steps != [] ==>
      && NeverOvertaken(w, steps[..|steps| - 1])
      && !Overtakes(Run(w, steps[..|steps| - 1]), steps[|steps| - 1])
  }

  /** Over whole runs: every event has at most one holder throughout exactly when no claimant is ever overtaken. */
  lemma {:induction false} OneHolderExactly(w: World, steps: seq<Step>)
    requires Start(w)
    ensures AlwaysOneHolder(w, steps) <==> NeverOvertaken(w, steps)
  {
    hide Next, OneHolder, Overtakes;
    if steps == [] {
      assert OneHolder(Run(w, steps)) by { NobodyHolds(w); }
    } else {
      var before := steps[..|steps| - 1];
      OneHolderExactly(w, before);
      if AlwaysOneHolder(w, before) {
        assert OneHolder(Run(w, before));
        OneHolderStepExactly(Run(w, before), steps[|steps| - 1]);
      }
    }
  }

  lemma NobodyHolds(w: World)
    requires Start(w)
    ensures OneHolder(w)
  {}

  /** The step takes a publication back. */
  predicate Undoes(w: World, step: Step, e: EventId) {
    Published(w, e) && !Published(Next(w, step), e)
  }

  lemma UndoneByFailure(w: World, step: Step, e: EventId)
    requires Published(w, e)
    ensures Undoes(w, step, e) <==> step.Fail? && step.hold in w.holds && step.hold.event == e
  {}

  /** In every run, a published event can lose its publication exactly while a worker still holds it - another one, or
      its publisher that did not hear of it; the step that does it is that worker's failure. */
  lemma UndoneExactly(w: World, steps: seq<Step>, e: EventId)
    requires Start(w) && Published(Run(w, steps), e)
    ensures (exists step :: Undoes(Run(w, steps), step, e)) <==> (exists h :: h in Run(w, steps).holds && h.event == e)
    ensures forall step :: Undoes(Run(w, steps), step, e) ==>
        step.Fail? && step.hold in Run(w, steps).holds && step.hold.event == e
  {
    hide Run, Next, Undoes;
    var now := Run(w, steps);
    forall step ensures Undoes(now, step, e) <==> step.Fail? && step.hold in now.holds && step.hold.event == e {
      UndoneByFailure(now, step, e);
    }
    if h :| h in now.holds && h.event == e {
      assert Undoes(now, Fail(h), e);
    }
  }

  /** And whenever an event has two holders, the one can publish it and the other take that back. */
  lemma SecondHolderUndoes(w: World, steps: seq<Step>, h: Hold, k: Hold)
    requires Start(w) && h in Run(w, steps).holds && k in Run(w, steps).holds && h.event == k.event
    requires k != h && k != h.(added := true)
    ensures var published := Next(Next(Run(w, steps), Add(h)), Acknowledge(h.(added := true)));
            Published(published, h.event) && Undoes(published, Fail(k), h.event)
  {
    hide Run;
    PublishedAfterQueued(w, steps);
    var now := Run(w, steps);
    var published := Next(Next(now, Add(h)), Acknowledge(h.(added := true)));
    assert h.(added := true) in Next(now, Add(h)).holds;
    UndoneByFailure(published, Fail(k), h.event);
  }

  /** The worker's final update was committed, and it never heard so. */
  predicate Unheard(steps: seq<Step>, h: Hold) {
    AcknowledgeUnheard(h) in steps
  }

  lemma UnheardMore(steps: seq<Step>, h: Hold)
    requires steps != [] && Unheard(steps[..|steps| - 1], h)
    ensures Unheard(steps, h)
  {
    assert AcknowledgeUnheard(h) in steps[..|steps| - 1];
  }

  /** Without overtaking, whoever still holds a published event has published it and not heard so. */
  lemma {:induction false} HolderOfPublished(w: World, steps: seq<Step>, h: Hold)
    requires Start(w) && NeverOvertaken(w, steps) && h in Run(w, steps).holds && Published(Run(w, steps), h.event)
    ensures Unheard(steps, h) && h.added
  {
    hide Run, Next, Unheard, Published, Overtakes;
    assert steps != [] by { assert Run(w, []) == w by { NothingRun(w); } }
    var init, last := steps[..|steps| - 1], steps[|steps| - 1];
    var before := Run(w, init);
    LastStep(w, steps);
    OneHolderExactly(w, init);
    assert OneHolder(before);
    var h0 := HeldBefore(before, last, h);
    if Published(before, h.event) {
      HolderOfPublished(w, init, h0);
      UnheardMore(steps, h0);
    } else {
      JustPublished(before, last, h);
      assert last in steps;
      assert Unheard(steps, h) by { NowUnheard(steps, h); }
    }
  }

  lemma NothingRun(w: World)
    ensures Run(w, []) == w
  {}

  lemma LastStep(w: World, steps: seq<Step>)
    requires steps != []
    ensures Run(w, steps) == Next(Run(w, steps[..|steps| - 1]), steps[|steps| - 1])
  {
    hide Next;
  }

  lemma NowUnheard(steps: seq<Step>, h: Hold)
    requires AcknowledgeUnheard(h) in steps
    ensures Unheard(steps, h)
  {}

  /** Who holds a published event held it a step earlier: only its job may have been queued since. */
  lemma HeldBefore(w: World, step: Step, h: Hold) returns (h0: Hold)
    requires h in Next(w, step).holds && Published(Next(w, step), h.event)
    ensures h0 in w.holds && h0.event == h.event && (h0 == h || (!h0.added && h == h0.(added := true)))
  {
    if h in w.holds {
      h0 := h;
    } else {
      match step
      case Add(k) => h0 := k;
      case Claim(worker, events) => h0 := h;
      case _ => h0 := h;
    }
  }

  lemma JustPublished(w: World, step: Step, h: Hold)
    requires OneHolder(w) && h in Next(w, step).holds && Published(Next(w, step), h.event) && !Published(w, h.event)
    ensures step == AcknowledgeUnheard(h) && h.added
  {}

  /** So in a run without overtaking a published event can lose its publication exactly while its own publisher has
      not heard of it and is still at work. */
  lemma UndoneWithoutOvertaking(w: World, steps: seq<Step>, e: EventId)
    requires Start(w) && NeverOvertaken(w, steps) && Published(Run(w, steps), e)
    ensures (exists step :: Undoes(Run(w, steps), step, e))
       <==> (exists h :: h in Run(w, steps).holds && h.event == e && Unheard(steps, h))
  {
    hide Run, Next, Undoes, Unheard;
    UndoneExactly(w, steps, e);
    forall h | h in Run(w, steps).holds && h.event == e ensures Unheard(steps, h) {
      HolderOfPublished(w, steps, h);
    }
  }

  // ---- quick claimants -----------------------------------------------------------------------------

  /** Every claimant still at work claimed less than a minute ago. */
  ghost predicate Timely(w: World) {
    forall h | h in w.holds :: w.now < h.since + MINUTE
  }

  ghost predicate AlwaysTimely(w: World, steps: seq<Step>) {
    Timely(Run(w, steps)) && (steps != [] ==> AlwaysTimely(w, steps[..|steps| - 1]))
  }

  lemma {:induction false} TimelyIsNeverOvertaken(w: World, steps: seq<Step>)
    requires AlwaysTimely(w, steps)
    ensures NeverOvertaken(w, steps)
  {
    hide Next, Run;
    if steps != [] { TimelyIsNeverOvertaken(w, steps[..|steps| - 1]); }
  }

  /** If every claimant finishes or dies within a minute of its claim, no two workers ever hold the same event, and
      a published event stays published as long as no publisher that missed its answer is still at work on it. */
  lemma QuickClaimantsDeliverOnce(w: World, steps: seq<Step>, e: EventId)
    requires Start(w) && AlwaysTimely(w, steps)
    ensures forall h, k | h in Run(w, steps).holds && k in Run(w, steps).holds && h.event == k.event :: h == k
    ensures Published(Run(w, steps), e) ==>
      ((forall step :: Published(Next(Run(w, steps), step), e))
        <==> !(exists h :: h in Run(w, steps).holds && h.event == e && Unheard(steps, h)))
  {
    hide Run, Next, Published, Unheard;
    TimelyIsNeverOvertaken(w, steps);
    OneHolderExactly(w, steps);
    if Published(Run(w, steps), e) {
      UndoneWithoutOvertaking(w, steps, e);
      assert forall step :: Undoes(Run(w, steps), step, e) <==> !Published(Next(Run(w, steps), step), e);
    }
  }

  // ---- a slow claimant ---------------------------------------------------------------------------

  function Claimant(worker: WorkerId, since: int, added: bool): Hold {
    Hold(worker, 1, since, 0, added)
  }

  function Empty(): World {
    World(0, map[], {}, {})
  }

  function HeldTwice(): World {
    World(MINUTE, map[1 := Row(PENDING, 0, Some(MINUTE + MINUTE))], {Claimant(1, 0, false), Claimant(2, MINUTE, false)},
          {})
  }

  lemma SlowClaimant()
    ensures Next(Next(Next(Next(Empty(), Create(1)), Claim(1, {1})), Pass(MINUTE)), Claim(2, {1})) == HeldTwice()
  {
    var w := Next(Next(Empty(), Create(1)), Claim(1, {1}));
    assert NewHolds(Next(Empty(), Create(1)), 1, {1}) == {Claimant(1, 0, false)};
    assert w == World(0, map[1 := Row(PENDING, 0, Some(MINUTE))], {Claimant(1, 0, false)}, {});
    var w' := Next(w, Pass(MINUTE));
    assert NewHolds(w', 2, {1}) == {Claimant(2, MINUTE, false)};
    assert Next(w', Claim(2, {1})).rows == HeldTwice().rows;
  }

  lemma PublishedThenFailed()
    ensures var published := Next(Next(HeldTwice(), Add(Claimant(1, 0, false))), Acknowledge(Claimant(1, 0, true)));
            && published.rows[1].status.PUBLISHED?
            && var after := Next(published, Fail(Claimant(2, MINUTE, false)));
               after.rows[1].status.FAILED? && after.rows[1].nextRetryAt == Some(MINUTE + 2000)
  {
    var w := Next(HeldTwice(), Add(Claimant(1, 0, false)));
    assert Claimant(1, 0, true) in w.holds && Claimant(2, MINUTE, false) in w.holds;
    var published := Next(w, Acknowledge(Claimant(1, 0, true)));
    assert Claimant(2, MINUTE, false) in published.holds;
    assert Power2(1) == 2;
  }

  lemma RunMore(w: World, steps: seq<Step>, step: Step)
    ensures Run(w, steps + [step]) == Next(Run(w, steps), step)
  {
    assert (steps + [step])[..|steps + [step]| - 1] == steps;
  }

  lemma {:induction false} AlwaysTimelyMore(w: World, steps: seq<Step>, step: Step)
    requires AlwaysTimely(w, steps) && Timely(Next(Run(w, steps), step))
    ensures AlwaysTimely(w, steps + [step])
  {
    hide Next, Timely;
    RunMore(w, steps, step);
    assert (steps + [step])[..|steps|] == steps;
  }

  /** One claimant at work on event 1, at the time of its claim. */
  function Alone(status: EventStatus, added: bool, queued: set<EventId>): World {
    World(0, map[1 := Row(status, 0, Some(MINUTE))], {Claimant(1, 0, added)}, queued)
  }

  lemma AloneClaims()
    ensures Next(Next(Empty(), Create(1)), Claim(1, {1})) == Alone(PENDING, false, {})
    ensures Timely(Empty()) && Timely(Next(Empty(), Create(1)))
  {
    var w := Next(Empty(), Create(1));
    assert w == World(0, map[1 := Row(PENDING, 0, None)], {}, {});
    assert NewHolds(w, 1, {1}) == {Claimant(1, 0, false)};
    assert Next(w, Claim(1, {1})).rows == Alone(PENDING, false, {}).rows;
  }

  lemma AloneAdds()
    ensures Next(Alone(PENDING, false, {}), Add(Claimant(1, 0, false))) == Alone(PENDING, true, {1})
  {}

  lemma AloneUnheard()
    ensures Next(Alone(PENDING, true, {1}), AcknowledgeUnheard(Claimant(1, 0, true))) == Alone(PUBLISHED, true, {1})
  {
    assert map[1 := Row(PENDING, 0, Some(MINUTE))][1 := Row(PUBLISHED, 0, Some(MINUTE))]
        == map[1 := Row(PUBLISHED, 0, Some(MINUTE))];
  }

  lemma AloneFails()
    ensures Undoes(Alone(PUBLISHED, true, {1}), Fail(Claimant(1, 0, true)), 1)
  {
    UndoneByFailure(Alone(PUBLISHED, true, {1}), Fail(Claimant(1, 0, true)), 1);
  }

  lemma AloneIsTimely(status: EventStatus, added: bool, queued: set<EventId>)
    ensures Timely(Alone(status, added, queued))
  {}

  /** A quick claimant, all alone: its update is committed, the answer lost, and its own failure takes it back. */
  lemma LostAnswerUndoes() returns (w: World, steps: seq<Step>, step: Step)
    ensures Start(w) && AlwaysTimely(w, steps) && Undoes(Run(w, steps), step, 1)
  {
    w, steps, step := Empty(), [], Fail(Claimant(1, 0, true));
    AloneClaims();
    AloneAdds();
    AloneUnheard();
    AloneFails();
    AloneIsTimely(PENDING, false, {});
    AloneIsTimely(PENDING, true, {1});
    AloneIsTimely(PUBLISHED, true, {1});
    assert Run(w, steps) == w && AlwaysTimely(w, steps);
    hide Next, Run, Empty, Alone, Timely, Undoes, AlwaysTimely;
    RunMore(w, steps, Create(1));
    AlwaysTimelyMore(w, steps, Create(1));
    steps := steps + [Create(1)];
    RunMore(w, steps, Claim(1, {1}));
    AlwaysTimelyMore(w, steps, Claim(1, {1}));
    steps := steps + [Claim(1, {1})];
    RunMore(w, steps, Add(Claimant(1, 0, false)));
    AlwaysTimelyMore(w, steps, Add(Claimant(1, 0, false)));
    steps := steps + [Add(Claimant(1, 0, false))];
    RunMore(w, steps, AcknowledgeUnheard(Claimant(1, 0, true)));
    AlwaysTimelyMore(w, steps, AcknowledgeUnheard(Claimant(1, 0, true)));
    steps := steps + [AcknowledgeUnheard(Claimant(1, 0, true))];
  }

  lemma RunToHeldTwice() returns (steps: seq<Step>)
    ensures Start(Empty()) && Run(Empty(), steps) == HeldTwice()
  {
    SlowClaimant();
    steps := [];
    assert Start(Empty()) && Run(Empty(), steps) == Empty();
    hide Next, Run, Empty, HeldTwice;
    RunMore(Empty(), steps, Create(1));
    steps := steps + [Create(1)];
    RunMore(Empty(), steps, Claim(1, {1}));
    steps := steps + [Claim(1, {1})];
    RunMore(Empty(), steps, Pass(MINUTE));
    steps := steps + [Pass(MINUTE)];
    RunMore(Empty(), steps, Claim(2, {1}));
    steps := steps + [Claim(2, {1})];
  }

  /** A claimant that takes a minute or longer breaks both: its event gets a second holder, and once the first
      has published it the second can still turn it back to FAILED, to be delivered again. */
  lemma SlowClaimantBreaksBoth() returns (steps: seq<Step>)
    ensures Start(Empty()) && Run(Empty(), steps) == HeldTwice()
    ensures Claimant(1, 0, false) in HeldTwice().holds && Claimant(2, MINUTE, false) in HeldTwice().holds
    ensures PublicationUndone(HeldTwice(), Add(Claimant(1, 0, false)), Acknowledge(Claimant(1, 0, true)),
                              Fail(Claimant(2, MINUTE, false)))
  {
    PublishedThenFailed();
    hide Run;
    steps := RunToHeldTwice();
  }

  /** Two more steps publish event 1, and a third takes it back. */
  predicate PublicationUndone(w: World, a: Step, b: Step, c: Step) {
    var published := Next(Next(w, a), b);
    && 1 in published.rows && published.rows[1].status.PUBLISHED?
    && 1 in Next(published, c).rows && Next(published, c).rows[1].status.FAILED?
  }

  // ---- no bound on retries ---------------------------------------------------------------------

  /** A failed attempt leaves the row due at once exactly when it used up the retries: the row that was to be given
      up has no date, and a row without a date is due. */
  lemma DueAfterFailureExactly(row: Row, attempts: nat, now: int)
    ensures Claimable(AfterFailure(row, attempts, now), now) <==> attempts >= MAX_RETRIES
  {
    PowerPositive(attempts);
  }

  /** In every run, an event whose n-th attempt failed can be claimed again after 2 s, 4 s, 8 s and 16 s for n up to 4,
      and at once from the fifth failure on. */
  lemma DueAgainExactly(w: World, steps: seq<Step>, h: Hold, ms: nat)
    requires Start(w) && h in Run(w, steps).holds
    ensures var later, n := Next(Next(Run(w, steps), Fail(h)), Pass(ms)), h.attempts + 1;
            && h.event in later.rows && later.rows[h.event].status.FAILED? && later.rows[h.event].attempts == n
            && (MayClaim(later, {h.event}) <==>
                  n >= 5 || ms >= (if n == 1 then 2000 else if n == 2 then 4000 else if n == 3 then 8000 else 16000))
  {
    hide Run;
    PublishedAfterQueued(w, steps);
    FirstPowers();
    hide Power2;
  }

  lemma FirstPowers()
    ensures Power2(1) == 2 && Power2(2) == 4 && Power2(3) == 8 && Power2(4) == 16
  {
    assert Power2(0) == 1;
    assert Power2(1) == 2;
    assert Power2(2) == 4;
    assert Power2(3) == 8;
  }

  lemma {:induction false} PowerPositive(n: nat)
    ensures Power2(n) >= 1
  {
    if n > 0 { PowerPositive(n - 1); }
  }

  /** Every event was tried at most MAX_RETRIES times. */
  ghost predicate RetriesBounded(w: World) {
    forall e | e in w.rows :: w.rows[e].attempts <= MAX_RETRIES
  }

  ghost predicate AlwaysBounded(w: World, steps: seq<Step>) {
    RetriesBounded(Run(w, steps)) && (steps != [] ==> AlwaysBounded(w, steps[..|steps| - 1]))
  }

  /** A worker that claimed an event already given up fails once more. */
  predicate RetriesGivenUp(w: World, step: Step) {
    step.Fail? && step.hold in w.holds && step.hold.attempts >= MAX_RETRIES
  }

  ghost predicate NeverRetriesGivenUp(w: World, steps: seq<Step>) {
    steps != [] ==>
      && NeverRetriesGivenUp(w, steps[..|steps| - 1])
      && !RetriesGivenUp(Run(w, steps[..|steps| - 1]), steps[|steps| - 1])
  }

  lemma BoundedStepExactly(w: World, step: Step)
    requires QueuedFirst(w) && RetriesBounded(w)
    ensures RetriesBounded(Next(w, step)) <==> !RetriesGivenUp(w, step)
  {
    if step.Fail? && step.hold in w.holds {
      assert step.hold.event in w.rows;
      assert Next(w, step).rows[step.hold.event].attempts == step.hold.attempts + 1;
    }
  }

  /** The bound on retries holds throughout a run exactly when no event that was given up is tried, and fails, again. */
  lemma {:induction false} RetryBoundExactly(w: World, steps: seq<Step>)
    requires Start(w)
    ensures AlwaysBounded(w, steps) <==> NeverRetriesGivenUp(w, steps)
  {
    hide Next, RetriesBounded, RetriesGivenUp;
    if steps == [] {
      assert RetriesBounded(Run(w, steps)) by { NothingTried(w); }
    } else {
      var before := steps[..|steps| - 1];
      RetryBoundExactly(w, before);
      PublishedAfterQueued(w, before);
      if AlwaysBounded(w, before) {
        assert RetriesBounded(Run(w, before));
        BoundedStepExactly(Run(w, before), steps[|steps| - 1]);
      }
    }
  }

  lemma NothingTried(w: World)
    requires Start(w)
    ensures RetriesBounded(w)
  {}

  /** Such runs exist for any number of attempts: for every n some run makes n of them on one event. */
  lemma {:induction false} AttemptsUnbounded(n: nat) returns (steps: seq<Step>)
    ensures var w := Run(Empty(), steps);
            && w.rows.Keys == {1} && w.holds == {} && !w.rows[1].status.PUBLISHED? && w.rows[1].attempts == n
  {
    if n == 0 {
      steps := [Create(1)];
      RunMore(Empty(), [], Create(1));
      assert [] + [Create(1)] == steps;
    } else {
      var before := AttemptsUnbounded(n - 1);
      var w := Run(Empty(), before);
      var wait: nat := match w.rows[1].nextRetryAt case None => 0 case Some(t) => if t > w.now then t - w.now else 0;
      var h := Hold(1, 1, w.now + wait, n - 1, false);
      OneMoreFailure(w, wait, h);
      hide Next, Run, Empty;
      RunMore(Empty(), before, Pass(wait));
      RunMore(Empty(), before + [Pass(wait)], Claim(1, {1}));
      RunMore(Empty(), before + [Pass(wait)] + [Claim(1, {1})], Fail(h));
      steps := before + [Pass(wait)] + [Claim(1, {1})] + [Fail(h)];
    }
  }

  lemma OneMoreFailure(w: World, wait: nat, h: Hold)
    requires w.rows.Keys == {1} && w.holds == {} && !w.rows[1].status.PUBLISHED?
    requires w.rows[1].nextRetryAt.Some? ==> w.rows[1].nextRetryAt.value <= w.now + wait
    requires h == Hold(1, 1, w.now + wait, w.rows[1].attempts, false)
    ensures var after := Next(Next(Next(w, Pass(wait)), Claim(1, {1})), Fail(h));
            && after.rows.Keys == {1} && after.holds == {} && !after.rows[1].status.PUBLISHED?
                 && after.rows[1].attempts == w.rows[1].attempts + 1
  {
    var w' := Next(w, Pass(wait));
    assert MayClaim(w', {1});
    assert NewHolds(w', 1, {1}) == {h};
    assert Next(w', Claim(1, {1})).holds == {h};
  }
}
