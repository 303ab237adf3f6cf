/** The worker's own loop over a claimed batch, as a run of the outbox machine in which nobody else steps in. */
module OutboxWorkers {
  import opened Outbox

  function Ids(s: seq<EventId>): set<EventId> {
    set e | e in s
  }

  /** How many of the rows are due. */
  function DueCount(rows: seq<Row>, now: int): nat {
    if rows == [] then 0 else DueCount(rows[..|rows| - 1], now) + (if Claimable(rows[|rows| - 1], now) then 1 else 0)
  }

  /** The oldest due rows, a batch of them: those with fewer than a batch of due rows before them. */
  predicate InBatch(rows: seq<Row>, now: int, i: nat)
    requires i < |rows|
  {
    Claimable(rows[i], now) && DueCount(rows[..i], now) < BATCH_SIZE
  }

  /** Not published, and not scheduled for later. */
  predicate Due(row: Row, now: int) {
    row.status != PUBLISHED && (row.nextRetryAt.Some? ==> row.nextRetryAt.value <= now)
  }

  function DueBefore(rows: seq<Row>, now: int, i: nat): set<nat> {
    set k: nat | k < i && k < |rows| && Due(rows[k], now)
  }

  lemma {:induction false} DueCounted(rows: seq<Row>, now: int, i: nat)
    requires i <= |rows|
    ensures DueCount(rows[..i], now) == |DueBefore(rows, now, i)|
  {
    if i == 0 {
      assert DueBefore(rows, now, 0) == {};
    } else {
      DueCounted(rows, now, i - 1);
      assert rows[..i][..i - 1] == rows[..i - 1];
      assert DueBefore(rows, now, i)
        == DueBefore(rows, now, i - 1) + (if Due(rows[i - 1], now) then {i - 1} else {});
    }
  }

  /** The batch is the fifty oldest due rows: a row is in it exactly when it is due and fewer than fifty older ones
      are. */
  lemma BatchIsTheOldestFifty(rows: seq<Row>, now: int, i: nat)
    requires i < |rows|
    ensures InBatch(rows, now, i) <==> Due(rows[i], now) && |DueBefore(rows, now, i)| < 50
  {
    hide DueBefore;
    DueCounted(rows, now, i);
  }

  /** Time these events take, one after the other. */
  function Spent(ids: seq<nat>, took: nat -> nat): nat {
    if ids == [] then 0 else Spent(ids[..|ids| - 1], took) + took(ids[|ids| - 1])
  }

  /** How the publication of one event goes: the queue may refuse it, the final update may fail after it, or be
      committed while its answer is lost. */
  datatype Fate = Fine | NotQueued | NotAcknowledged | Unheard

  /** The events of a sequence whose publication goes in one of these ways. */
  function Kept(ids: seq<nat>, fate: nat -> Fate, among: set<Fate>): seq<nat> {
    if ids == [] then []
    else Kept(ids[..|ids| - 1], fate, among) + (if fate(ids[|ids| - 1]) in among then [ids[|ids| - 1]] else [])
  }

  /** Those of the batch. */
  ghost function Batch(rows: seq<Row>, now: int, fate: nat -> Fate, among: set<Fate>): set<nat> {
    set i: nat | i < |rows| && InBatch(rows, now, i) && fate(i) in among
  }

  predicate NoRepeats(ids: seq<nat>) {
    forall a, b | 0 <= a < b < |ids| :: ids[a] != ids[b]
  }

  lemma {:induction false} KeptMembers(ids: seq<nat>, fate: nat -> Fate, among: set<Fate>)
    requires NoRepeats(ids)
    ensures forall i :: i in Kept(ids, fate, among) <==> i in ids && fate(i) in among
    ensures NoRepeats(Kept(ids, fate, among))
  {
    if ids != [] {
      var before, last := ids[..|ids| - 1], ids[|ids| - 1];
      KeptMembers(before, fate, among);
      assert ids == before + [last];
      assert forall a | 0 <= a < |Kept(before, fate, among)| :: Kept(before, fate, among)[a] in before;
    }
  }

  lemma {:induction false} CountOfIds(ids: seq<nat>)
    requires NoRepeats(ids)
    ensures |Ids(ids)| == |ids|
  {
    if ids == [] {
      assert Ids(ids) == {};
    } else {
      CountOfIds(ids[1..]);
      assert Ids(ids) == {ids[0]} + Ids(ids[1..]);
    }
  }

  /** What a worker does with a claimed event, after the time it takes. */
  function PublishSteps(h: Hold, fate: Fate, took: nat): seq<Step> {
    [Pass(took)] + match fate
      case Fine => [Add(h), Acknowledge(h.(added := true))]
      case NotQueued => [Fail(h)]
      case NotAcknowledged => [Add(h), Fail(h.(added := true))]
      case Unheard => [Add(h), AcknowledgeUnheard(h.(added := true)), Fail(h.(added := true))]
  }

  /** The row once its publication, ended at `time`, went as it did. */
  function AfterPublication(row: Row, fate: Fate, time: int): Row {
    if fate.Fine? then row.(status := PUBLISHED) else AfterFailure(row, row.attempts + 1, time)
  }

  lemma {:induction false} RunFurther(w: World, steps: seq<Step>, more: seq<Step>)
    ensures Run(w, steps + more) == Run(Run(w, steps), more)
  {
    hide Next;
    if more == [] {
      assert steps + more == steps;
    } else {
      RunFurther(w, steps, more[..|more| - 1]);
      assert (steps + more)[..|steps + more| - 1] == steps + more[..|more| - 1];
    }
  }

  lemma RunOnly(w: World, step: Step)
    ensures Run(w, [step]) == Next(w, step)
  {
    hide Next;
    RunMore(w, [], step);
    assert [] + [step] == [step];
  }

  lemma RunTwo(w: World, a: Step, b: Step)
    ensures Run(w, [a, b]) == Next(Next(w, a), b)
  {
    hide Next;
    RunMore(w, [], a);
    RunMore(w, [a], b);
    assert [] + [a] == [a] && [a] + [b] == [a, b];
  }

  /** The publication of one event, all at once. */
  lemma PublicationRun(w: World, h: Hold, fate: Fate, took: nat)
    requires h in w.holds && !h.added && h.(added := true) !in w.holds
    requires h.event in w.rows && w.rows[h.event].attempts == h.attempts
    ensures Run(w, PublishSteps(h, fate, took))
         == World(w.now + took, w.rows[h.event := AfterPublication(w.rows[h.event], fate, w.now + took)], w.holds - {h},
                  if fate.NotQueued? then w.queued else w.queued + {h.event})
  {
    var held := h.(added := true);
    var w' := Next(w, Pass(took));
    hide Run, AfterFailure;
    match fate
    case Fine =>
      RunTwo(w', Add(h), Acknowledge(held));
      RunOne(w, Pass(took), [Add(h), Acknowledge(held)]);
      assert w.holds - {h} + {held} - {held} == w.holds - {h};
    case NotQueued =>
      RunTwo(w, Pass(took), Fail(h));
      assert [Pass(took)] + [Fail(h)] == [Pass(took), Fail(h)];
    case NotAcknowledged =>
      RunTwo(w', Add(h), Fail(held));
      RunOne(w, Pass(took), [Add(h), Fail(held)]);
      assert w.holds - {h} + {held} - {held} == w.holds - {h};
    case Unheard =>
      var w'' := Next(w', Add(h));
      RunTwo(w'', AcknowledgeUnheard(held), Fail(held));
      RunOne(w', Add(h), [AcknowledgeUnheard(held), Fail(held)]);
      assert [Add(h)] + [AcknowledgeUnheard(held), Fail(held)] == [Add(h), AcknowledgeUnheard(held), Fail(held)];
      RunOne(w, Pass(took), [Add(h), AcknowledgeUnheard(held), Fail(held)]);
      UnheardThenFailed(w'', held);
      assert w.holds - {h} + {held} - {held} == w.holds - {h};
  }

  lemma UnheardThenFailed(w: World, h: Hold)
    requires h in w.holds && h.added && h.event in w.rows && w.rows[h.event].attempts == h.attempts
    ensures Next(Next(w, AcknowledgeUnheard(h)), Fail(h))
         == w.(rows := w.rows[h.event := AfterFailure(w.rows[h.event], h.attempts + 1, w.now)], holds := w.holds - {h})
  {
    var row := w.rows[h.event];
    assert AfterFailure(row.(status := PUBLISHED), h.attempts + 1, w.now) == AfterFailure(row, h.attempts + 1, w.now);
  }

  lemma FailureForgets(row: Row, row': Row, now: int)
    ensures AfterFailure(row, row'.attempts + 1, now) == AfterFailure(row', row'.attempts + 1, now)
  {}

  lemma RunOne(w: World, step: Step, more: seq<Step>)
    ensures Run(w, [step] + more) == Run(Next(w, step), more)
  {
    hide Next;
    RunFurther(w, [step], more);
    RunMore(w, [], step);
    assert [] + [step] == [step];
  }

  lemma {:induction false} SetOfSeq(s: seq<EventId>)
    ensures |Ids(s)| <= |s|
  {
    if s == [] {
      assert Ids(s) == {};
    } else {
      SetOfSeq(s[1..]);
      assert Ids(s) == {s[0]} + Ids(s[1..]);
    }
  }

  /** The machine's view of a table, its holders and its queue. */
  ghost function WorldOf(now: int, events: seq<Row>, holds: set<Hold>, queue: seq<nat>): World {
    World(now, map i: EventId | i < |events| :: events[i], holds, Ids(queue))
  }

  /** What a worker holds after claiming these rows. */
  ghost function Taken(rows: seq<Row>, worker: WorkerId, now: int, ids: seq<nat>): set<Hold>
    requires forall k | 0 <= k < |ids| :: ids[k] < |rows|
  {
    set i: nat | i in ids :: Hold(worker, i, now, rows[i].attempts, false)
  }

  lemma TakenIsNew(rows: seq<Row>, worker: WorkerId, now: int, ids: seq<nat>, holds: set<Hold>, queue: seq<nat>)
    requires forall k | 0 <= k < |ids| :: ids[k] < |rows|
    ensures Ids(ids) <= WorldOf(now, rows, holds, queue).rows.Keys
    ensures NewHolds(WorldOf(now, rows, holds, queue), worker, Ids(ids)) == Taken(rows, worker, now, ids)
  {
    var w := WorldOf(now, rows, holds, queue);
    forall h | h in Taken(rows, worker, now, ids) ensures h in NewHolds(w, worker, Ids(ids)) {
      assert h.event in Ids(ids) && w.rows[h.event] == rows[h.event];
    }
    forall h | h in NewHolds(w, worker, Ids(ids)) ensures h in Taken(rows, worker, now, ids) {
      assert h.event in ids && w.rows[h.event] == rows[h.event];
    }
  }

  lemma TakenRest(rows: seq<Row>, worker: WorkerId, now: int, ids: seq<nat>)
    requires ids != [] && ids[0] !in ids[1..] && forall k | 0 <= k < |ids| :: ids[k] < |rows|
    ensures Hold(worker, ids[0], now, rows[ids[0]].attempts, false) in Taken(rows, worker, now, ids)
    ensures Taken(rows, worker, now, ids) - {Hold(worker, ids[0], now, rows[ids[0]].attempts, false)}
         == Taken(rows, worker, now, ids[1..])
    ensures forall h | h in Taken(rows, worker, now, ids) :: !h.added
  {
    assert ids[0] in ids;
    var first := Hold(worker, ids[0], now, rows[ids[0]].attempts, false);
    forall h ensures h in Taken(rows, worker, now, ids) - {first} <==> h in Taken(rows, worker, now, ids[1..]) {
      if h in Taken(rows, worker, now, ids[1..]) { assert h.event in ids[1..] && h.event in ids; }
      if h in Taken(rows, worker, now, ids) - {first} { assert h.event in ids && h.event != ids[0]; }
    }
  }

  lemma ClaimedWorld(events: seq<Row>, events': seq<Row>, claimed: seq<nat>, worker: WorkerId, now: int,
                     holds: set<Hold>, queue: seq<nat>)
    requires |claimed| <= BATCH_SIZE && |events'| == |events|
    requires forall k | 0 <= k < |claimed| :: claimed[k] < |events| && Claimable(events[claimed[k]], now)
    requires forall i: nat | i < |events| :: events'[i] == if i in claimed then Claimed(events[i], now) else events[i]
    ensures WorldOf(now, events', holds + Taken(events, worker, now, claimed), queue)
         == Next(WorldOf(now, events, holds, queue), Claim(worker, Ids(claimed)))
  {
    hide Claimable, Claimed, Taken;
    var w := WorldOf(now, events, holds, queue);
    SetOfSeq(claimed);
    assert MayClaim(w, Ids(claimed));
    TakenIsNew(events, worker, now, claimed, holds, queue);
    assert Next(w, Claim(worker, Ids(claimed))).rows == WorldOf(now, events', holds, queue).rows;
  }

  /** Exactly the batch, in some order. */
  ghost predicate IsBatch(start: seq<Row>, claimed: seq<nat>, t: int) {
    && (forall k | 0 <= k < |claimed| :: claimed[k] < |start|)
    && NoRepeats(claimed)
    && (forall i: nat | i < |start| :: i in claimed <==> InBatch(start, t, i))
  }

  lemma OldestFirst(start: seq<Row>, claimed: seq<nat>, t: int)
    requires forall k | 0 <= k < |claimed| :: claimed[k] < |start|
    requires forall k, j | 0 <= k < j < |claimed| :: claimed[k] < claimed[j]
    requires forall k: nat | k < |start| :: k in claimed <==> InBatch(start, t, k)
    ensures IsBatch(start, claimed, t)
  {
    hide InBatch;
  }

  /** Time once the first k are done. */
  function Clock(claimed: seq<nat>, k: nat, t: int, took: nat -> nat): int
    requires k <= |claimed|
  {
    t + Spent(claimed[..k], took)
  }

  lemma ClockMoves(claimed: seq<nat>, k: nat, t: int, took: nat -> nat)
    requires k < |claimed|
    ensures Clock(claimed, k + 1, t, took) == Clock(claimed, k, t, took) + took(claimed[k])
  {
    assert claimed[..k + 1][..k] == claimed[..k];
  }

  /** The first k claimed rows were published in turn, the others are still marked. */
  ghost predicate Progress(start: seq<Row>, events: seq<Row>, claimed: seq<nat>, k: nat, t: int, fate: nat -> Fate,
                           took: nat -> nat)
  {
    && |events| == |start| && k <= |claimed|
    && (forall j: nat | j < |claimed| && claimed[j] < |start| ::
          events[claimed[j]] == if j < k
            then AfterPublication(Claimed(start[claimed[j]], t), fate(claimed[j]), Clock(claimed, j + 1, t, took))
            else Claimed(start[claimed[j]], t))
    && (forall i: nat | i < |start| && i !in claimed :: events[i] == start[i])
  }

  lemma BatchMarked(start: seq<Row>, events: seq<Row>, claimed: seq<nat>, t: int, fate: nat -> Fate, took: nat -> nat)
    requires |events| == |start| && IsBatch(start, claimed, t)
    requires forall i: nat | i < |start| :: events[i] == if i in claimed then Claimed(start[i], t) else start[i]
    ensures Progress(start, events, claimed, 0, t, fate, took)
  {}

  lemma BatchKept(start: seq<Row>, claimed: seq<nat>, t: int, fate: nat -> Fate, among: set<Fate>)
    requires IsBatch(start, claimed, t)
    ensures Ids(Kept(claimed, fate, among)) == Batch(start, t, fate, among)
    ensures |Kept(claimed, fate, among)| == |Batch(start, t, fate, among)|
  {
    hide InBatch;
    KeptMembers(claimed, fate, among);
    CountOfIds(Kept(claimed, fate, among));
  }

  lemma KeptNext(claimed: seq<nat>, k: nat, fate: nat -> Fate, among: set<Fate>)
    requires k < |claimed|
    ensures Kept(claimed[..k + 1], fate, among)
         == Kept(claimed[..k], fate, among) + (if fate(claimed[k]) in among then [claimed[k]] else [])
  {
    assert claimed[..k + 1][..k] == claimed[..k];
  }

  /** The start of the loop, and its end. */
  lemma NothingYet(start: seq<Row>, worker: WorkerId, t: int, fate: nat -> Fate, among: set<Fate>, took: nat -> nat)
    ensures Kept([], fate, among) == [] && Taken(start, worker, t, []) == {}
    ensures forall claimed :: Clock(claimed, 0, t, took) == t
  {}

  lemma WholeClock(claimed: seq<nat>, t: int, took: nat -> nat)
    ensures Clock(claimed, |claimed|, t, took) == t + Spent(claimed, took)
  {
    assert claimed[..|claimed|] == claimed;
  }

  /** The next event's hold is at hand, and the rest stay. */
  lemma TakenNext(start: seq<Row>, worker: WorkerId, t: int, claimed: seq<nat>, k: nat)
    requires IsBatch(start, claimed, t) && k < |claimed|
    ensures var h := Hold(worker, claimed[k], t, start[claimed[k]].attempts, false);
            && h in Taken(start, worker, t, claimed[k..]) && h.(added := true) !in Taken(start, worker, t, claimed[k..])
            && Taken(start, worker, t, claimed[k..]) - {h} == Taken(start, worker, t, claimed[k + 1..])
  {
    hide InBatch, Taken;
    TakenRest(start, worker, t, claimed[k..]);
    assert claimed[k..][1..] == claimed[k + 1..];
  }

  lemma ProgressStep(start: seq<Row>, events: seq<Row>, claimed: seq<nat>, k: nat, t: int, fate: nat -> Fate,
                     took: nat -> nat)
    requires IsBatch(start, claimed, t) && k < |claimed| && Progress(start, events, claimed, k, t, fate, took)
    ensures |events| == |start| && events[claimed[k]].attempts == start[claimed[k]].attempts
    ensures var time := Clock(claimed, k + 1, t, took);
            Progress(start, events[claimed[k] := AfterPublication(events[claimed[k]], fate(claimed[k]), time)], claimed,
                     k + 1, t, fate, took)
  {
    hide InBatch, AfterPublication, Clock;
    assert claimed[k] in claimed;
  }

  class OutboxWorker {
    const id: WorkerId

    /** The table in order of creation, and the ids queued so far. */
    var now: int
    var events: seq<Row>
    var queue: seq<nat>

    /** The claimed events this worker is not done with. */
    ghost var holds: set<Hold>

    constructor (worker: WorkerId, time: int, rows: seq<Row>)
      ensures id == worker && now == time && events == rows && queue == [] && holds == {}
    {
      id, now, events, queue, holds := worker, time, rows, [], {};
    }

    ghost function World(): World
      reads this
    {
      WorldOf(now, events, holds, queue)
    }

    /** One statement: marks the oldest due rows and returns them, in an order it does not promise. */
    method ClaimBatch() returns (claimed: seq<nat>)
      modifies this`events, this`holds
      ensures |claimed| <= BATCH_SIZE && |events| == |old(events)|
      ensures IsBatch(old(events), claimed, now)
      ensures forall i: nat | i < |events| ::
        events[i] == if i in claimed then Claimed(old(events)[i], now) else old(events)[i]
      ensures World() == Next(old(World()), Claim(id, Ids(claimed)))
      ensures holds == old(holds) + Taken(old(events), id, now, claimed)
    {
      hide WorldOf, Taken, Next, Ids, IsBatch;
      claimed := [];
      for i: nat := 0 to |events|
        invariant |events| == |old(events)| && holds == old(holds)
        invariant |claimed| <= BATCH_SIZE
        invariant |claimed|
          == (if DueCount(old(events)[..i], now) < BATCH_SIZE then DueCount(old(events)[..i], now) else BATCH_SIZE)
        invariant forall k | 0 <= k < |claimed| :: claimed[k] < i
        invariant forall k, j | 0 <= k < j < |claimed| :: claimed[k] < claimed[j]
        invariant forall k: nat | k < i :: k in claimed <==> InBatch(old(events), now, k)
        invariant forall k: nat | k < |events| ::
          events[k] == if k in claimed then Claimed(old(events)[k], now) else old(events)[k]
      {
        assert old(events)[..i + 1][..i] == old(events)[..i];
        assert events[i] == old(events)[i];
        if Claimable(events[i], now) && |claimed| < BATCH_SIZE {
          events := events[i := Claimed(events[i], now)];
          claimed := claimed + [i];
        }
      }
      OldestFirst(old(events), claimed, now);
      ClaimedWorld(old(events), events, claimed, id, now, old(holds), queue);
      holds := holds + Taken(old(events), id, now, claimed);
    }

    /** One event of the batch: queued and acknowledged, or scheduled for another attempt. */
    method Publish(event: nat, ghost h: Hold, fate: Fate, took: nat) returns (published: bool)
      requires h in holds && h.event == event && !h.added && h.(added := true) !in holds
      requires event < |events| && events[event].attempts == h.attempts
      modifies this
      ensures World() == Run(old(World()), PublishSteps(h, fate, took))
      ensures now == old(now) + took && holds == old(holds) - {h} && published == fate.Fine?
      ensures events == old(events)[event := AfterPublication(old(events)[event], fate, now)]
      ensures queue == old(queue) + (if fate.NotQueued? then [] else [event])
    {
      hide Run, AfterFailure, PublishSteps;
      PublicationRun(World(), h, fate, took);
      var row := events[event];
      now := now + took;
      published := false;
      if !fate.NotQueued? {
        queue := queue + [event];
        if !fate.NotAcknowledged? { events := events[event := row.(status := PUBLISHED)]; }
        published := fate.Fine?;
      }
      if !published {
        FailureForgets(events[event], row, now);
        events := events[event := AfterFailure(events[event], row.attempts + 1, now)];
      }
      holds := holds - {h};
    }

    /** Claims a batch and publishes it in the order returned; fate and took are what happens to each event on the
        way. The pass is a run of the machine, and the rows end as if each were published at the end of its turn. */
    method ProcessOutbox(fate: nat -> Fate, took: nat -> nat)
      returns (processed: nat, ghost claimed: seq<nat>, ghost steps: seq<Step>)
      requires holds == {}
      modifies this
      ensures World() == Run(old(World()), steps) && holds == {}
      ensures IsBatch(old(events), claimed, old(now)) && now == old(now) + Spent(claimed, took)
      ensures Progress(old(events), events, claimed, |claimed|, old(now), fate, took)
      ensures old(queue) <= queue
      ensures Ids(queue[|old(queue)|..]) == Batch(old(events), old(now), fate, {Fine, NotAcknowledged, Unheard})
      ensures processed == |Batch(old(events), old(now), fate, {Fine})|
    {
      hide Run, Next, WorldOf, InBatch, AfterPublication, Claimed, Ids, PublishSteps, Spent, Taken, Clock, Progress;
      hide Kept, Batch;
      ghost var start, t, queued, world := events, now, queue, World();
      ghost var sent, fine := {Fine, NotAcknowledged, Unheard}, {Fine};
      var batch := ClaimBatch();
      claimed := batch;
      hide IsBatch;
      steps := [Claim(id, Ids(claimed))];
      RunOnly(world, steps[0]);
      BatchMarked(start, events, claimed, t, fate, took);
      NothingYet(start, id, t, fate, sent, took);
      NothingYet(start, id, t, fate, fine, took);
      assert claimed[0..] == claimed && claimed[..0] == [];
      processed := 0;
      for k := 0 to |batch|
        invariant World() == Run(world, steps) && holds == Taken(start, id, t, claimed[k..])
        invariant Progress(start, events, claimed, k, t, fate, took) && now == Clock(claimed, k, t, took)
        invariant queue == queued + Kept(claimed[..k], fate, sent) && processed == |Kept(claimed[..k], fate, fine)|
      {
        var event := batch[k];
        ghost var h := Hold(id, event, t, start[event].attempts, false);
        TakenNext(start, id, t, claimed, k);
        ProgressStep(start, events, claimed, k, t, fate, took);
        ClockMoves(claimed, k, t, took);
        KeptNext(claimed, k, fate, sent);
        KeptNext(claimed, k, fate, fine);
        RunFurther(world, steps, PublishSteps(h, fate(event), took(event)));
        var published := Publish(event, h, fate(event), took(event));
        steps := steps + PublishSteps(h, fate(event), took(event));
        if published { processed := processed + 1; }
      }
      BatchKept(start, claimed, t, fate, sent);
      BatchKept(start, claimed, t, fate, fine);
      WholeClock(claimed, t, took);
      assert claimed[|claimed|..] == [] && claimed[..|claimed|] == claimed;
      assert queue[|queued|..] == Kept(claimed, fate, sent);
    }
  }
}
