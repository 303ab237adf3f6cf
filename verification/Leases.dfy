/** Time-bounded leases in Redis: one key per symbol, taken with SET NX EX 15, prolonged and deleted only by
    scripts that compare the token first. Time is in milliseconds. */
module Leases {

  /** Process tokens are fresh uuids. */
  type Token = nat

  const TTL: int := 15000

  datatype Lease = Free | Held(owner: Token, until: int)

  predicate Live(l: Lease, now: int) {
    l.Held? && now < l.until
  }

  predicate Holds(l: Lease, now: int, t: Token) {
    Live(l, now) && l.owner == t
  }

  /** SET key token EX 15 NX. */
  function SetNxEx(l: Lease, now: int, t: Token): (Lease, bool) {
    if Live(l, now) then (l, false) else (Held(t, now + TTL), true)
  }

  /** The heartbeat script: expire only when the value is the caller's token. */
  function CompareExpire(l: Lease, now: int, t: Token): (Lease, bool) {
    if Live(l, now) && l.owner == t then (Held(t, now + TTL), true) else (l, false)
  }

  /** The release script: delete only when the value is the caller's token. */
  function CompareDelete(l: Lease, now: int, t: Token): (Lease, bool) {
    if Live(l, now) && l.owner == t then (Free, true) else (l, false)
  }

  datatype Command = Acquire(token: Token) | Renew(token: Token) | Release(token: Token)

  function Perform(l: Lease, now: int, c: Command): (Lease, bool) {
    match c
    case Acquire(t) => SetNxEx(l, now, t)
    case Renew(t) => CompareExpire(l, now, t)
    case Release(t) => CompareDelete(l, now, t)
  }

  /** at is the time Redis performed the command. */
  datatype Reply = Reply(command: Command, ok: bool, at: int)

  /** A claim of t from time `at` is backed: while its 15 s last, Redis holds the key for t at least as long. */
  predicate Backed(l: Lease, now: int, t: Token, at: int) {
    now < at + TTL ==> l.Held? && l.owner == t && l.until >= at + TTL
  }

  lemma BackedByPerforming(l: Lease, now: int, c: Command)
    requires !c.Release? && Perform(l, now, c).1
    ensures Backed(Perform(l, now, c).0, now, c.token, now)
  {}

  /** No command touches a claim of another process, and only a release ends a claim of the same one. */
  lemma PerformKeepsClaims(l: Lease, now: int, c: Command, t: Token, at: int)
    requires Backed(l, now, t, at) && at <= now && (c.Release? ==> c.token != t)
    ensures Backed(Perform(l, now, c).0, now, t, at)
  {}

  /** Heartbeats and releases never extend or delete another process's lease. */
  lemma OthersLeaseUntouched(l: Lease, now: int, c: Command)
    requires c.Renew? || c.Release?
    ensures Perform(l, now, c).0 != l ==> Live(l, now) && l.owner == c.token
    ensures Perform(l, now, c).1 <==> Live(l, now) && l.owner == c.token
  {}

  /** A grant or a renewal lasts 15 s: for that long nobody else is granted the lease and its holder can renew and
      release it; afterwards it is free to anybody, and no longer the holder's to renew. A release frees it at once. */
  lemma GrantLastsFifteenSeconds(l: Lease, now: int, c: Command, later: int, t: Token)
    requires now <= later && Perform(l, now, c).1
    ensures var l' := Perform(l, now, c).0;
            if c.Release? then Perform(l', later, Acquire(t)).1
            else && (Perform(l', later, Acquire(t)).1 <==> later >= now + 15000)
                 && (Perform(l', later, Renew(t)).1 <==> t == c.token && later < now + 15000)
                 && (Perform(l', later, Release(t)).1 <==> t == c.token && later < now + 15000)
  {}
}

/** Engines competing for one symbol: they start, acquire, beat, lose, close and crash; their commands reach
    Redis late, repeatedly, out of order or never, and so do the replies. */
module EngineLeases {
  import opened Leases

  /** since is the latest time at which Redis is known to have granted or renewed. */
  datatype Process = Process(owns: bool, since: int, closing: bool)

  datatype World = World(now: int, lease: Lease, processes: map<Token, Process>, used: set<Token>,
                         commands: set<Command>, replies: set<Reply>)

  datatype Event =
    | Pass(ms: nat)
    | Boot(token: Token)              // a new process, its first act is to acquire
    | Crash(token: Token)
    | Beat(token: Token)              // the 10 s timer, for an owned symbol
    | Close(token: Token)             // stops the timers, then releases
    | Reach(command: Command)         // a command sent at some time is performed, perhaps again
    | Hear(reply: Reply)              // a reply arrives, perhaps again

  function Next(w: World, e: Event): World {
    match e
    case Pass(ms) => w.(now := w.now + ms)
    case Boot(t) =>
      if t in w.used then w
      else w.(used := w.used + {t}, processes := w.processes[t := Process(false, w.now - TTL, false)],
              commands := w.commands + {Acquire(t)})
    case Crash(t) => w.(processes := w.processes - {t})
    case Beat(t) =>
      if t in w.processes && w.processes[t].owns && !w.processes[t].closing then w.(commands := w.commands + {Renew(t)})
        else w
    case Close(t) =>
      if t in w.processes then
        w.(processes := w.processes[t := w.processes[t].(closing := true)], commands := w.commands + {Release(t)})
      else w
    case Reach(c) =>
      if c in w.commands then
        var (lease, ok) := Perform(w.lease, w.now, c);
        w.(lease := lease, replies := w.replies + {Reply(c, ok, w.now)})
      else w
    case Hear(r) =>
      if r in w.replies && r.command.token in w.processes then
        var t := r.command.token;
        var p := w.processes[t];
        match r.command
        case Acquire(_) =>
          if r.ok then w.(processes := w.processes[t := p.(owns := true,
                since := if p.owns && p.since >= r.at then p.since else r.at)])
          else w.(processes := w.processes - {t})
        case Renew(_) =>
          if r.ok then w.(processes := w.processes[t := p.(since := if p.since >= r.at then p.since else r.at)])
          else w.(processes := w.processes[t := p.(owns := false)])
        case Release(_) => w.(processes := w.processes[t := p.(owns := false)])
      else w
  }

  ghost function Run(w: World, events: seq<Event>): World {
    if events == [] then w else Next(Run(w, events[..|events| - 1]), events[|events| - 1])
  }

  predicate Start(w: World) {
    w.lease == Free && w.processes == map[] && w.used == {} && w.commands == {} && w.replies == {}
  }

  /** A process that counts: it believes it owns the symbol and has not begun to close. */
  predicate Believes(w: World, t: Token) {
    t in w.processes && w.processes[t].owns && !w.processes[t].closing
  }

  /** ... and Redis granted or renewed within the last 15 s. */
  predicate Fresh(w: World, t: Token) {
    Believes(w, t) && w.now < w.processes[t].since + TTL
  }

  predicate Counts(w: World, t: Token) {
    t in w.processes && !w.processes[t].closing
  }

  ghost predicate Inv(w: World) {
    && (forall t | t in w.processes :: t in w.used && w.processes[t].since <= w.now)
    && (forall c | c in w.commands :: c.token in w.used && (c.Release? ==> !Counts(w, c.token)))
    && (forall r | r in w.replies ::
        r.command.token in w.used && r.at <= w.now && (r.command.Release? ==> !Counts(w, r.command.token)))
    && (forall t | t in w.processes && Counts(w, t) :: Backed(w.lease, w.now, t, w.processes[t].since))
    && (forall r | r in w.replies && r.ok && Counts(w, r.command.token) ::
        Backed(w.lease, w.now, r.command.token, r.at))
  }

  lemma ReachKeepsInv(w: World, c: Command)
    requires Inv(w) && c in w.commands
    ensures Inv(Next(w, Reach(c)))
  {
    var w' := Next(w, Reach(c));
    forall t | t in w'.processes && Counts(w', t) ensures Backed(w'.lease, w'.now, t, w'.processes[t].since) {
      PerformKeepsClaims(w.lease, w.now, c, t, w.processes[t].since);
    }
    forall r | r in w'.replies && r.ok && Counts(w', r.command.token)
      ensures Backed(w'.lease, w'.now, r.command.token, r.at)
    {
      if r in w.replies {
        PerformKeepsClaims(w.lease, w.now, c, r.command.token, r.at);
      } else {
        BackedByPerforming(w.lease, w.now, c);
      }
    }
  }

  lemma HearKeepsInv(w: World, r: Reply)
    requires Inv(w) && r in w.replies
    ensures Inv(Next(w, Hear(r)))
  {
    hide Backed;
    assert r.ok && Counts(w, r.command.token) ==> Backed(w.lease, w.now, r.command.token, r.at);
    var w' := Next(w, Hear(r));
    forall t | t in w'.processes && Counts(w', t) ensures Backed(w'.lease, w'.now, t, w'.processes[t].since) {
      assert Counts(w, t);
    }
  }

  lemma PassKeepsInv(w: World, ms: nat)
    requires Inv(w)
    ensures Inv(Next(w, Pass(ms)))
  {}

  lemma LocalKeepsInv(w: World, e: Event)
    requires Inv(w) && (e.Boot? || e.Crash? || e.Beat? || e.Close?)
    ensures Inv(Next(w, e))
  {
    hide Perform;
  }

  lemma NextKeepsInv(w: World, e: Event)
    requires Inv(w)
    ensures Inv(Next(w, e))
  {
    hide Inv;
    match e
    case Pass(ms) => PassKeepsInv(w, ms);
    case Reach(c) => if c in w.commands { ReachKeepsInv(w, c); }
    case Hear(r) => if r in w.replies { HearKeepsInv(w, r); }
    case _ => LocalKeepsInv(w, e);
  }

  lemma {:induction false} RunKeepsInv(w: World, events: seq<Event>)
    requires Start(w)
    ensures Inv(Run(w, events))
  {
    hide Next;
    if events != [] {
      RunKeepsInv(w, events[..|events| - 1]);
      NextKeepsInv(Run(w, events[..|events| - 1]), events[|events| - 1]);
    }
  }

  /** Timed exclusion: in every run at most one engine that has not begun to close believes it owns the symbol
      with a grant or renewal of the last 15 s, and that one is Redis's holder. */
  lemma TimedExclusion(w: World, events: seq<Event>, t: Token, u: Token)
    requires Start(w) && Fresh(Run(w, events), t)
    ensures Live(Run(w, events).lease, Run(w, events).now) && Run(w, events).lease.owner == t
    ensures Fresh(Run(w, events), u) ==> u == t
  {
    hide Run;
    RunKeepsInv(w, events);
  }

  /** A lease somebody holds is only ever extended by a heartbeat of its holder, or deleted by its release. */
  lemma OnlyTheHolderMovesALease(w: World, e: Event)
    requires Live(w.lease, w.now) && Next(w, e).lease != w.lease
    ensures e.Reach? && (e.command.Renew? || e.command.Release?) && e.command.token == w.lease.owner
  {}

  // ---- why the 15 s are needed -----------------------------------------------------------------

  function Empty(): World {
    World(0, Free, map[], {}, {}, {})
  }

  /** Engine 1 is granted the lease and hears so. */
  function Granted(): World {
    World(0, Held(1, TTL), map[1 := Process(true, 0, false)], {1}, {Acquire(1)}, {Reply(Acquire(1), true, 0)})
  }

  /** Engine 2 is granted it 15 s later. */
  function GrantedAgain(): World {
    World(TTL, Held(2, TTL + TTL), map[1 := Process(true, 0, false), 2 := Process(true, TTL, false)], {1, 2},
          {Acquire(1), Acquire(2)}, {Reply(Acquire(1), true, 0), Reply(Acquire(2), true, TTL)})
  }

  lemma FirstGrant()
    ensures Next(Next(Next(Empty(), Boot(1)), Reach(Acquire(1))), Hear(Reply(Acquire(1), true, 0))) == Granted()
  {
    var w := Next(Empty(), Boot(1));
    assert w == World(0, Free, map[1 := Process(false, -TTL, false)], {1}, {Acquire(1)}, {});
    assert Next(w, Reach(Acquire(1)))
      == World(0, Held(1, TTL), map[1 := Process(false, -TTL, false)], {1}, {Acquire(1)}, {Reply(Acquire(1), true, 0)});
  }

  lemma SecondGrant()
    ensures Next(Next(Next(Next(Granted(), Pass(TTL)), Boot(2)), Reach(Acquire(2))), Hear(Reply(Acquire(2), true, TTL)))
      == GrantedAgain()
  {
    var w := Next(Next(Granted(), Pass(TTL)), Boot(2));
    assert w == World(TTL, Held(1, TTL), map[1 := Process(true, 0, false), 2 := Process(false, 0, false)], {1, 2},
                      {Acquire(1), Acquire(2)}, {Reply(Acquire(1), true, 0)});
    assert Next(w, Reach(Acquire(2)))
      == World(TTL, Held(2, TTL + TTL), map[1 := Process(true, 0, false), 2 := Process(false, 0, false)], {1, 2},
                      {Acquire(1), Acquire(2)}, {Reply(Acquire(1), true, 0), Reply(Acquire(2), true, TTL)});
  }

  lemma RunMore(w: World, events: seq<Event>, e: Event)
    ensures Run(w, events + [e]) == Next(Run(w, events), e)
  {
    assert (events + [e])[..|events + [e]| - 1] == events;
  }

  /** Belief alone excludes nothing: an engine that hears nothing for 15 s goes on believing while another one
      holds the lease, so the time bound cannot be dropped. */
  lemma BeliefIsNotEnough() returns (events: seq<Event>)
    ensures Start(Empty()) && Believes(Run(Empty(), events), 1) && Believes(Run(Empty(), events), 2)
    ensures !Fresh(Run(Empty(), events), 1) && Run(Empty(), events).lease.Held? && Run(Empty(), events).lease.owner == 2
  {
    FirstGrant();
    SecondGrant();
    events := [];
    assert Run(Empty(), events) == Empty();
    hide Next, Run, Empty, Granted;
    RunMore(Empty(), events, Boot(1));
    events := events + [Boot(1)];
    RunMore(Empty(), events, Reach(Acquire(1)));
    events := events + [Reach(Acquire(1))];
    RunMore(Empty(), events, Hear(Reply(Acquire(1), true, 0)));
    events := events + [Hear(Reply(Acquire(1), true, 0))];
    RunMore(Empty(), events, Pass(TTL));
    events := events + [Pass(TTL)];
    RunMore(Empty(), events, Boot(2));
    events := events + [Boot(2)];
    RunMore(Empty(), events, Reach(Acquire(2)));
    events := events + [Reach(Acquire(2))];
    RunMore(Empty(), events, Hear(Reply(Acquire(2), true, TTL)));
    events := events + [Hear(Reply(Acquire(2), true, TTL))];
  }
}
