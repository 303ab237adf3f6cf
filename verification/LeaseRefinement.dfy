/** The lease handlers, seen from the machines: a handler that runs through on its own is its event, the command's
    arrival at Redis, and the answer's arrival back. */
module LeaseRefinement {
  import opened Prelude
  import opened Leases
  import opened LeaseServices
  import E = EngineLeases
  import F = FeedLeases

  // ---- the feed -------------------------------------------------------------------------------

  /** An event of a feed, and the way of the command it sends. */
  function Round(first: F.Event, t: Token, trouble: Trouble): seq<F.Event> {
    [first] + match trouble
      case NoTrouble => [F.Reach(t), F.Hear(t)]
      case Unsent => [F.LoseCommand(t)]
      case Unanswered => [F.Reach(t), F.LoseAnswer(t)]
  }

  /** Once the first event is done, what is left of the round. */
  function Travel(w: F.World, t: Token, trouble: Trouble): F.World {
    match trouble
    case NoTrouble => F.Next(F.Next(w, F.Reach(t)), F.Hear(t))
    case Unsent => F.Next(w, F.LoseCommand(t))
    case Unanswered => F.Next(F.Next(w, F.Reach(t)), F.LoseAnswer(t))
  }

  /** No command or answer of the feed is on its way. */
  predicate Idle(w: F.World, t: Token) {
    t in w.feeds && w.feeds[t].outbox == [] && w.feeds[t].inbox == []
  }

  /** The lease and this feed's belief moved, and nothing of the other feeds. */
  ghost predicate Moved(w: F.World, w': F.World, t: Token, lease: Lease, owned: bool) {
    && w'.now == w.now && w'.lease == lease && Idle(w', t) && w'.feeds[t].isOwned == owned
    && w'.feeds.Keys == w.feeds.Keys + {t} && forall u | u in w.feeds && u != t :: w'.feeds[u] == w.feeds[u]
  }

  lemma RunTwo(w: F.World, a: F.Event, b: F.Event)
    ensures F.Run(w, [a, b]) == F.Next(F.Next(w, a), b)
  {
    hide F.Next;
    assert [a, b][..1] == [a] && [a][..0] == [];
    assert F.Run(w, []) == w && F.Run(w, [a]) == F.Next(w, a);
  }

  lemma RunThree(w: F.World, a: F.Event, b: F.Event, c: F.Event)
    ensures F.Run(w, [a, b, c]) == F.Next(F.Next(F.Next(w, a), b), c)
  {
    hide F.Next;
    RunTwo(w, a, b);
    assert [a, b, c][..2] == [a, b];
  }

  lemma RoundRuns(w: F.World, first: F.Event, t: Token, trouble: Trouble)
    ensures F.Run(w, Round(first, t, trouble)) == Travel(F.Next(w, first), t, trouble)
  {
    hide F.Next, F.Run;
    match trouble
    case NoTrouble =>
      RunThree(w, first, F.Reach(t), F.Hear(t));
      assert [first] + [F.Reach(t), F.Hear(t)] == [first, F.Reach(t), F.Hear(t)];
    case Unsent =>
      RunTwo(w, first, F.LoseCommand(t));
      assert [first] + [F.LoseCommand(t)] == [first, F.LoseCommand(t)];
    case Unanswered =>
      RunThree(w, first, F.Reach(t), F.LoseAnswer(t));
      assert [first] + [F.Reach(t), F.LoseAnswer(t)] == [first, F.Reach(t), F.LoseAnswer(t)];
  }

  /** The command c is the only one on its way. */
  predicate OnItsWay(w: F.World, t: Token, c: Command) {
    t in w.feeds && |w.feeds[t].outbox| == 1 && w.feeds[t].inbox == [] && w.feeds[t].outbox[0].command == c
  }

  /** What the feed believes once it has the answer, or knows there will be none. */
  function Belief(f: F.Feed, c: Command, answer: Option<bool>): bool {
    match c
    case Acquire(_) => f.isOwned || answer == Some(true)
    case Renew(_) => f.isOwned && answer == Some(true)
    case Release(_) => f.isOwned
  }

  lemma CommandReaches(w: F.World, t: Token, c: Command)
    requires OnItsWay(w, t, c)
    ensures var (w', f') := (F.Next(w, F.Reach(t)), F.Answered(w.feeds[t], Perform(w.lease, w.now, c).1, w.now));
            && w' == F.With(w, t, f').(lease := Perform(w.lease, w.now, c).0)
            && f'.outbox == [] && |f'.inbox| == 1 && f'.isOwned == w.feeds[t].isOwned
            && f'.inbox[0].command == c && f'.inbox[0].ok == Perform(w.lease, w.now, c).1
  {
    hide Perform;
  }

  lemma AnswerReaches(w: F.World, t: Token, heard: bool)
    requires t in w.feeds && w.feeds[t].outbox == [] && |w.feeds[t].inbox| == 1
    ensures var (f, a) := (w.feeds[t], w.feeds[t].inbox[0]);
            Moved(w, F.Next(w, if heard then F.Hear(t) else F.LoseAnswer(t)), t, w.lease,
                  Belief(f, a.command, if heard then Some(a.ok) else None))
  {}

  lemma CommandTravels(w: F.World, t: Token, c: Command, trouble: Trouble)
    requires OnItsWay(w, t, c)
    ensures var (lease, answer) := Exchange(w.lease, w.now, c, trouble);
            Moved(w, Travel(w, t, trouble), t, lease, Belief(w.feeds[t], c, answer))
  {
    hide Perform, F.Answered;
    if trouble.Unsent? {
    } else {
      CommandReaches(w, t, c);
      AnswerReaches(F.Next(w, F.Reach(t)), t, trouble.NoTrouble?);
      hide F.Next;
    }
  }

  lemma NothingTravels(w: F.World, t: Token, trouble: Trouble)
    requires Idle(w, t)
    ensures Travel(w, t, trouble) == w
  {}

  /** A heartbeat is a run of the machine. */
  lemma HeartbeatIsRun(w: F.World, t: Token, open: bool, trouble: Trouble)
    requires Idle(w, t) && F.MayBeat(w.feeds[t], w.now)
    ensures var (lease, owned) := AfterBeat(w.lease, w.now, t, w.feeds[t].isOwned, open, trouble);
            Moved(w, F.Run(w, Round(F.Timer(t, open), t, trouble)), t, lease, owned)
  {
    hide Perform, F.Run, Travel;
    RoundRuns(w, F.Timer(t, open), t, trouble);
    var sent := F.Next(w, F.Timer(t, open));
    if w.feeds[t].isOwned || open {
      CommandTravels(sent, t, sent.feeds[t].outbox[0].command, trouble);
    } else {
      NothingTravels(sent, t, trouble);
    }
  }

  /** So is start()'s first attempt, of a new feed. */
  lemma StartIsRun(w: F.World, t: Token, trouble: Trouble)
    requires t !in w.used && t !in w.feeds
    ensures var (lease, owned) := AfterAttempt(w.lease, w.now, t, false, trouble);
            Moved(w, F.Run(w, Round(F.Boot(t), t, trouble)), t, lease, owned)
  {
    hide Perform, F.Run, Travel;
    RoundRuns(w, F.Boot(t), t, trouble);
    CommandTravels(F.Next(w, F.Boot(t)), t, Acquire(t), trouble);
  }

  /** And stop(). */
  lemma StopIsRun(w: F.World, t: Token, trouble: Trouble)
    requires Idle(w, t)
    ensures Moved(w, F.Run(w, Round(F.Stop(t), t, trouble)), t,
                  AfterStop(w.lease, w.now, t, w.feeds[t].isOwned, trouble), w.feeds[t].isOwned)
  {
    hide Perform, F.Run, Travel;
    RoundRuns(w, F.Stop(t), t, trouble);
    var sent := F.Next(w, F.Stop(t));
    if w.feeds[t].isOwned { CommandTravels(sent, t, Release(t), trouble); } else { NothingTravels(sent, t, trouble); }
  }

  // ---- an engine and one of its symbols ----------------------------------------------------------

  /** The lease moved, and this process only. */
  ghost predicate EngineMoved(w: E.World, w': E.World, t: Token, lease: Lease) {
    && w'.now == w.now && w'.lease == lease
    && (forall u | u != t :: u in w'.processes <==> u in w.processes)
    && (forall u | u != t && u in w.processes :: w'.processes[u] == w.processes[u])
  }

  /** An event of an engine, and the way of the command it sends. */
  function EngineRound(w: E.World, first: E.Event, c: Command, trouble: Trouble): seq<E.Event> {
    [first] + match trouble
      case NoTrouble => [E.Reach(c), E.Hear(Reply(c, Perform(w.lease, w.now, c).1, w.now))]
      case Unsent => []
      case Unanswered => [E.Reach(c)]
  }

  lemma EngineRoundRuns(w: E.World, first: E.Event, c: Command, trouble: Trouble)
    ensures var sent := E.Next(w, first);
            E.Run(w, EngineRound(w, first, c, trouble)) == match trouble
              case NoTrouble => E.Next(E.Next(sent, E.Reach(c)), E.Hear(Reply(c, Perform(w.lease, w.now, c).1, w.now)))
              case Unsent => sent
              case Unanswered => E.Next(sent, E.Reach(c))
  {
    hide E.Next, E.Run, Perform;
    var heard := E.Hear(Reply(c, Perform(w.lease, w.now, c).1, w.now));
    NothingRun(w);
    E.RunMore(w, [], first);
    E.RunMore(w, [first], E.Reach(c));
    E.RunMore(w, [first, E.Reach(c)], heard);
    assert [] + [first] == [first] == [first] + [] && [first] + [E.Reach(c)] == [first, E.Reach(c)];
    assert [first] + [E.Reach(c), heard] == [first, E.Reach(c)] + [heard];
  }

  lemma NothingRun(w: E.World)
    ensures E.Run(w, []) == w
  {}

  /** Acquiring a symbol: a granted process believes, backed by Redis; a refused one is gone. */
  lemma AcquiringIsRun(w: E.World, t: Token)
    requires t !in w.used && t !in w.processes
    ensures var (lease, ok) := Perform(w.lease, w.now, Acquire(t));
            var w' := E.Run(w, EngineRound(w, E.Boot(t), Acquire(t), NoTrouble));
            EngineMoved(w, w', t, lease) && (t in w'.processes <==> ok) && (ok ==> E.Fresh(w', t))
  {
    hide Perform, E.Run;
    EngineRoundRuns(w, E.Boot(t), Acquire(t), NoTrouble);
  }

  /** A heartbeat: the belief is given up exactly when a refusal is heard, and renewed to the full 15 s when the
      renewal is; without an answer it stays as it was. */
  lemma BeatingIsRun(w: E.World, t: Token, trouble: Trouble)
    requires E.Believes(w, t) && w.processes[t].since <= w.now
    ensures var (lease, answer) := Exchange(w.lease, w.now, Renew(t), trouble);
            var w' := E.Run(w, EngineRound(w, E.Beat(t), Renew(t), trouble));
            && EngineMoved(w, w', t, lease) && (E.Believes(w', t) <==> answer != Some(false))
            && (answer == Some(true) ==> E.Fresh(w', t)) && (answer.None? ==> w'.processes == w.processes)
  {
    hide Perform, E.Run;
    EngineRoundRuns(w, E.Beat(t), Renew(t), trouble);
  }

  /** Closing: the lease is given back, unless another process has it by now. */
  lemma ClosingIsRun(w: E.World, t: Token)
    requires t in w.processes
    ensures var w' := E.Run(w, EngineRound(w, E.Close(t), Release(t), NoTrouble));
            && EngineMoved(w, w', t, Perform(w.lease, w.now, Release(t)).0)
            && !E.Believes(w', t) && !Holds(w'.lease, w'.now, t)
  {
    hide E.Run;
    EngineRoundRuns(w, E.Close(t), Release(t), NoTrouble);
  }
}
