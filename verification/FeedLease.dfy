/** The feed's single lease. A feed keeps its token through releases: it gives the lease up when the session
    closes and may take it again later, so its own late answers matter. Each feed talks to Redis over one
    connection: its commands are performed, and answered, in the order it sent them, if at all. */
module FeedLeases {
  import opened Leases

  /** Time between two heartbeats. */
  const INTERVAL: int := 10000

  datatype Sent = Sent(number: nat, command: Command)
  datatype Answer = Answer(number: nat, command: Command, ok: bool, at: int)

  /** since and basis: time and number of the latest grant or renewal the feed has heard of. What Redis did for
      it: grantedAt and granted, time and number of its latest grant or renewal, and freed, its latest release.
      The heartbeat starts an interval after the first attempt was settled, and ends with stop(). */
  datatype Feed = Feed(
    isOwned: bool, since: int, basis: nat, count: nat, lastRelease: nat, outbox: seq<Sent>, inbox: seq<Answer>,
    grantedAt: int, granted: nat, freed: nat, settled: bool, nextBeat: int, stopped: bool)

  datatype World = World(now: int, lease: Lease, feeds: map<Token, Feed>, used: set<Token>)

  datatype Event =
    | Pass(ms: nat)
    | Boot(token: Token)                    // start(): a first attempt, whatever the session
    | Crash(token: Token)
    | Timer(token: Token, open: bool)       // the heartbeat, at the earliest an interval after the one before
    | Stop(token: Token)
    | Reach(token: Token)                   // the next command is performed
    | LoseCommand(token: Token)
    | Hear(token: Token)                    // the next answer arrives
    | LoseAnswer(token: Token)

  function NewFeed(now: int): Feed {
    Feed(false, now - TTL, 0, 0, 0, [], [], now - TTL, 0, 0, false, now, false)
  }

  function Send(f: Feed, c: Command): Feed {
    f.(count := f.count + 1, outbox := f.outbox + [Sent(f.count + 1, c)],
       lastRelease := if c.Release? then f.count + 1 else f.lastRelease)
  }

  predicate MayBeat(f: Feed, now: int) {
    f.settled && !f.stopped && now >= f.nextBeat
  }

  function Beat(f: Feed, t: Token, open: bool): Feed {
    if !f.isOwned then (if open then Send(f, Acquire(t)) else f)
    else if !open then Send(f.(isOwned := false), Release(t))
    else Send(f, Renew(t))
  }

  /** A failed heartbeat, or one that errs, ends the belief; a failed acquisition changes nothing. */
  function Heard(f: Feed, a: Answer): Feed {
    if a.command.Acquire? && a.ok then f.(isOwned := true, since := a.at, basis := a.number)
    else if a.command.Renew? && a.ok then f.(since := a.at, basis := a.number)
    else if a.command.Renew? then f.(isOwned := false)
    else f
  }

  function Failed(f: Feed, c: Command): Feed {
    if c.Renew? then f.(isOwned := false) else f
  }

  /** The first outcome of an attempt lets the heartbeat begin. */
  function Settled(f: Feed, now: int): Feed {
    if f.settled then f else f.(settled := true, nextBeat := now + INTERVAL)
  }

  /** The next command was performed. */
  function Answered(f: Feed, ok: bool, now: int): Feed
    requires f.outbox != []
  {
    var s := f.outbox[0];
    var f' := f.(outbox := f.outbox[1..], inbox := f.inbox + [Answer(s.number, s.command, ok, now)]);
    if s.command.Release? then f'.(freed := s.number)
    else if ok then f'.(grantedAt := now, granted := s.number)
    else f'
  }

  function With(w: World, t: Token, f: Feed): World {
    w.(feeds := w.feeds[t := f])
  }

  function Next(w: World, e: Event): World {
    match e
    case Pass(ms) => w.(now := w.now + ms)
    case Boot(t) =>
      if t in w.used then w
      else w.(used := w.used + {t}, feeds := w.feeds[t := Send(NewFeed(w.now), Acquire(t))])
    case Crash(t) => w.(feeds := w.feeds - {t})
    case Timer(t, open) =>
      if t in w.feeds && MayBeat(w.feeds[t], w.now) then
        With(w, t, Beat(w.feeds[t], t, open).(nextBeat := w.now + INTERVAL))
      else w
    case Stop(t) =>
      if t in w.feeds then
        var f := w.feeds[t].(stopped := true);
        With(w, t, if f.isOwned then Send(f, Release(t)) else f)
      else w
    case Reach(t) =>
      if t in w.feeds && w.feeds[t].outbox != [] then
        var (lease, ok) := Perform(w.lease, w.now, w.feeds[t].outbox[0].command);
        With(w, t, Answered(w.feeds[t], ok, w.now)).(lease := lease)
      else w
    case LoseCommand(t) =>
      if t in w.feeds && w.feeds[t].outbox != [] then
        var f := w.feeds[t];
        With(w, t, Settled(Failed(f, f.outbox[0].command).(outbox := f.outbox[1..]), w.now))
      else w
    case Hear(t) =>
      if t in w.feeds && w.feeds[t].inbox != [] then
        var f := w.feeds[t];
        With(w, t, Settled(Heard(f, f.inbox[0]).(inbox := f.inbox[1..]), w.now))
      else w
    case LoseAnswer(t) =>
      if t in w.feeds && w.feeds[t].inbox != [] then
        var f := w.feeds[t];
        With(w, t, Settled(Failed(f, f.inbox[0].command).(inbox := f.inbox[1..]), w.now))
      else w
  }

  ghost function Run(w: World, events: seq<Event>): World {
    if events == [] then w else Next(Run(w, events[..|events| - 1]), events[|events| - 1])
  }

  predicate Start(w: World) {
    w.lease == Free && w.feeds == map[] && w.used == {}
  }

  predicate Fresh(w: World, t: Token) {
    t in w.feeds && w.feeds[t].isOwned && w.now < w.feeds[t].since + TTL
  }

  /** The grant the belief rests on was asked for after the feed last gave the lease up. */
  predicate SinceRelease(w: World, t: Token) {
    t in w.feeds && w.feeds[t].basis > w.feeds[t].lastRelease
  }

  /** Redis granted the lease to the feed after performing its last release, less than 15 s ago. */
  predicate Granted(f: Feed, now: int) {
    f.granted > f.freed && now < f.grantedAt + TTL
  }

  /** Redis's view of one feed. */
  predicate LeaseOk(l: Lease, now: int, t: Token, f: Feed) {
    && (Holds(l, now, t) <==> Granted(f, now))
    && (Holds(l, now, t) ==> l.until == f.grantedAt + TTL)
  }

  /** The counters of a feed are in order. */
  predicate CountsOk(f: Feed, now: int) {
    f.basis <= f.granted <= f.count && f.freed <= f.lastRelease <= f.count && f.since <= f.grantedAt <= now
  }

  /** Commands on their way are later than everything performed, and in order. */
  ghost predicate OutboxOk(t: Token, outbox: seq<Sent>, granted: nat, freed: nat, count: nat, lastRelease: nat) {
    && (forall s | s in outbox :: s.command.token == t && granted < s.number <= count && freed < s.number)
    && (forall s | s in outbox :: s.command.Release? ==> s.number <= lastRelease)
    && (forall i, j | 0 <= i < j < |outbox| :: outbox[i].number < outbox[j].number)
  }

  ghost predicate InboxOk(t: Token, inbox: seq<Answer>, granted: nat, grantedAt: int) {
    forall a | a in inbox ::
      a.command.token == t && (a.ok && !a.command.Release? ==> a.number <= granted && a.at <= grantedAt)
  }

  ghost predicate FeedOk(t: Token, f: Feed, now: int) {
    && CountsOk(f, now)
    && OutboxOk(t, f.outbox, f.granted, f.freed, f.count, f.lastRelease)
    && InboxOk(t, f.inbox, f.granted, f.grantedAt)
  }

  ghost predicate Inv(w: World) {
    && (w.lease.Held? ==> w.lease.owner in w.used)
    && (forall t | t in w.feeds ::
        t in w.used && FeedOk(t, w.feeds[t], w.now) && LeaseOk(w.lease, w.now, t, w.feeds[t]))
  }

  lemma LaterKeeps(l: Lease, now: int, ms: nat, t: Token, f: Feed)
    requires FeedOk(t, f, now) && LeaseOk(l, now, t, f)
    ensures FeedOk(t, f, now + ms) && LeaseOk(l, now + ms, t, f)
  {}

  lemma SendKeepsFeed(t: Token, f: Feed, now: int, c: Command)
    requires FeedOk(t, f, now) && c.token == t
    ensures FeedOk(t, Send(f, c), now)
  {
    hide InboxOk;
  }

  lemma NextSent(t: Token, outbox: seq<Sent>, granted: nat, freed: nat, count: nat, lastRelease: nat)
    requires OutboxOk(t, outbox, granted, freed, count, lastRelease) && outbox != []
    ensures outbox[0].command.token == t && granted < outbox[0].number <= count && freed < outbox[0].number
    ensures outbox[0].command.Release? ==> outbox[0].number <= lastRelease
    ensures OutboxOk(t, outbox[1..], granted, freed, count, lastRelease)
    ensures OutboxOk(t, outbox[1..], outbox[0].number, freed, count, lastRelease)
    ensures OutboxOk(t, outbox[1..], granted, outbox[0].number, count, lastRelease)
  {
    assert outbox[0] in outbox;
    var rest := outbox[1..];
    forall s | s in rest ensures s in outbox && outbox[0].number < s.number {
      var i :| 0 <= i < |rest| && rest[i] == s;
      assert s == outbox[i + 1];
    }
  }

  lemma NextAnswer(t: Token, inbox: seq<Answer>, granted: nat, grantedAt: int)
    requires InboxOk(t, inbox, granted, grantedAt) && inbox != []
    ensures InboxOk(t, [inbox[0]], granted, grantedAt) && InboxOk(t, inbox[1..], granted, grantedAt)
  {
    assert inbox[0] in inbox;
    assert forall a | a in inbox[1..] :: a in inbox;
  }

  lemma HeardKeepsFeed(t: Token, f: Feed, now: int)
    requires FeedOk(t, f, now) && f.inbox != []
    ensures FeedOk(t, Settled(Heard(f, f.inbox[0]).(inbox := f.inbox[1..]), now), now)
    ensures FeedOk(t, Settled(Failed(f, f.inbox[0].command).(inbox := f.inbox[1..]), now), now)
  {
    hide OutboxOk;
    NextAnswer(t, f.inbox, f.granted, f.grantedAt);
    assert f.inbox[0] in [f.inbox[0]];
  }

  lemma LostKeepsFeed(t: Token, f: Feed, now: int)
    requires FeedOk(t, f, now) && f.outbox != []
    ensures FeedOk(t, Settled(Failed(f, f.outbox[0].command).(outbox := f.outbox[1..]), now), now)
  {
    hide OutboxOk, InboxOk;
    NextSent(t, f.outbox, f.granted, f.freed, f.count, f.lastRelease);
  }

  lemma AnsweredKeepsFeed(t: Token, f: Feed, now: int, ok: bool)
    requires FeedOk(t, f, now) && f.outbox != []
    ensures FeedOk(t, Answered(f, ok, now), now)
  {
    hide OutboxOk;
    NextSent(t, f.outbox, f.granted, f.freed, f.count, f.lastRelease);
  }

  /** The feed's own next command: its number is past everything performed before. */
  lemma OwnCommand(l: Lease, now: int, t: Token, f: Feed)
    requires FeedOk(t, f, now) && LeaseOk(l, now, t, f) && f.outbox != []
    ensures var (l', ok) := Perform(l, now, f.outbox[0].command); LeaseOk(l', now, t, Answered(f, ok, now))
  {
    hide OutboxOk, InboxOk;
    NextSent(t, f.outbox, f.granted, f.freed, f.count, f.lastRelease);
  }

  /** Another feed's command never gives or takes this feed's hold. */
  lemma OthersCommand(l: Lease, now: int, c: Command, t: Token, f: Feed)
    requires LeaseOk(l, now, t, f) && c.token != t
    ensures LeaseOk(Perform(l, now, c).0, now, t, f)
  {}

  lemma SetKeepsInv(w: World, t: Token, f: Feed)
    requires Inv(w) && t in w.feeds && FeedOk(t, f, w.now)
    requires f.grantedAt == w.feeds[t].grantedAt && f.granted == w.feeds[t].granted && f.freed == w.feeds[t].freed
    ensures Inv(With(w, t, f))
  {
    hide FeedOk;
  }

  lemma ReachKeepsInv(w: World, t: Token)
    requires Inv(w) && t in w.feeds && w.feeds[t].outbox != []
    ensures Inv(Next(w, Reach(t)))
  {
    hide FeedOk, LeaseOk, Answered;
    var f, c := w.feeds[t], w.feeds[t].outbox[0].command;
    assert FeedOk(t, f, w.now) && LeaseOk(w.lease, w.now, t, f);
    OwnToken(t, f, w.now);
    OwnCommand(w.lease, w.now, t, f);
    AnsweredKeepsFeed(t, f, w.now, Perform(w.lease, w.now, c).1);
    forall u | u in w.feeds && u != t ensures LeaseOk(Perform(w.lease, w.now, c).0, w.now, u, w.feeds[u]) {
      OthersCommand(w.lease, w.now, c, u, w.feeds[u]);
    }
  }

  lemma OwnToken(t: Token, f: Feed, now: int)
    requires FeedOk(t, f, now) && f.outbox != []
    ensures f.outbox[0].command.token == t
  {
    hide OutboxOk, InboxOk;
    NextSent(t, f.outbox, f.granted, f.freed, f.count, f.lastRelease);
  }

  lemma BootKeepsInv(w: World, t: Token)
    requires Inv(w) && t !in w.used
    ensures Inv(Next(w, Boot(t)))
  {
    assert FeedOk(t, NewFeed(w.now), w.now);
    SendKeepsFeed(t, NewFeed(w.now), w.now, Acquire(t));
    hide FeedOk;
  }

  /** Belief, schedule and session play no part in what is known of a feed. */
  lemma SameCounts(t: Token, f: Feed, f': Feed, now: int)
    requires FeedOk(t, f, now)
    requires f'.(isOwned := f.isOwned, settled := f.settled, nextBeat := f.nextBeat, stopped := f.stopped) == f
    ensures FeedOk(t, f', now)
  {
    hide OutboxOk, InboxOk;
  }

  lemma TimerKeepsInv(w: World, t: Token, open: bool)
    requires Inv(w) && t in w.feeds
    ensures Inv(Next(w, Timer(t, open)))
  {
    hide FeedOk;
    var f := w.feeds[t];
    SameCounts(t, f, f.(isOwned := false), w.now);
    SendKeepsFeed(t, f.(isOwned := false), w.now, Release(t));
    SendKeepsFeed(t, f, w.now, Acquire(t));
    SendKeepsFeed(t, f, w.now, Renew(t));
    var f' := Beat(f, t, open);
    SameCounts(t, f', f'.(nextBeat := w.now + INTERVAL), w.now);
    SetKeepsInv(w, t, f'.(nextBeat := w.now + INTERVAL));
  }

  lemma StopKeepsInv(w: World, t: Token)
    requires Inv(w) && t in w.feeds
    ensures Inv(Next(w, Stop(t)))
  {
    hide FeedOk;
    var f := w.feeds[t].(stopped := true);
    SameCounts(t, w.feeds[t], f, w.now);
    SendKeepsFeed(t, f, w.now, Release(t));
    SetKeepsInv(w, t, if f.isOwned then Send(f, Release(t)) else f);
  }

  lemma NextKeepsInv(w: World, e: Event)
    requires Inv(w)
    ensures Inv(Next(w, e))
  {
    hide FeedOk, LeaseOk;
    match e
    case Pass(ms) =>
      forall t | t in w.feeds ensures FeedOk(t, w.feeds[t], w.now + ms) && LeaseOk(w.lease, w.now + ms, t, w.feeds[t]) {
        LaterKeeps(w.lease, w.now, ms, t, w.feeds[t]);
      }
    case Boot(t) => if t !in w.used { BootKeepsInv(w, t); }
    case Crash(t) =>
    case Timer(t, open) => if t in w.feeds { TimerKeepsInv(w, t, open); }
    case Stop(t) => if t in w.feeds { StopKeepsInv(w, t); }
    case Reach(t) => if t in w.feeds && w.feeds[t].outbox != [] { ReachKeepsInv(w, t); }
    case LoseCommand(t) =>
      if t in w.feeds && w.feeds[t].outbox != [] {
        LostKeepsFeed(t, w.feeds[t], w.now);
        SetKeepsInv(w, t, Next(w, e).feeds[t]);
      }
    case Hear(t) =>
      if t in w.feeds && w.feeds[t].inbox != [] {
        HeardKeepsFeed(t, w.feeds[t], w.now);
        SetKeepsInv(w, t, Next(w, e).feeds[t]);
      }
    case LoseAnswer(t) =>
      if t in w.feeds && w.feeds[t].inbox != [] {
        HeardKeepsFeed(t, w.feeds[t], w.now);
        SetKeepsInv(w, t, Next(w, e).feeds[t]);
      }
  }

  lemma {:induction false} RunKeepsInv(w: World, events: seq<Event>)
    requires Start(w)
    ensures Inv(Run(w, events))
  {
    hide Next, FeedOk, LeaseOk;
    if events != [] {
      RunKeepsInv(w, events[..|events| - 1]);
      NextKeepsInv(Run(w, events[..|events| - 1]), events[|events| - 1]);
    }
  }

  /** A feed that believes on a grant of the last 15 s is Redis's holder exactly when Redis performed its last
      release, if any, before its last grant. */
  lemma BeliefIsRightExactly(w: World, events: seq<Event>, t: Token)
    requires Start(w) && Fresh(Run(w, events), t)
    ensures var end := Run(w, events);
            Holds(end.lease, end.now, t) <==> end.feeds[t].granted > end.feeds[t].freed
  {
    hide Run, OutboxOk, InboxOk;
    RunKeepsInv(w, events);
  }

  /** So it is whenever the grant was asked for after the feed's own last release, and at most one feed owns
      feed:global on such a grant. */
  lemma FeedExclusion(w: World, events: seq<Event>, t: Token, u: Token)
    requires Start(w) && Fresh(Run(w, events), t) && SinceRelease(Run(w, events), t)
    ensures Holds(Run(w, events).lease, Run(w, events).now, t)
    ensures Fresh(Run(w, events), u) && SinceRelease(Run(w, events), u) ==> u == t
  {
    hide Run, OutboxOk, InboxOk;
    RunKeepsInv(w, events);
  }

  // ---- the condition cannot be dropped ---------------------------------------------------------

  /** The events of the run below. A feed dies holding the lease; feed 1 is refused when it starts, asks again
      at its beats, and is granted the lease twice before it hears either answer; it hears the first, gives the
      lease up as the session closes, and then hears the second; meanwhile feed 2 starts. */
  const Holder: seq<Event> := [Boot(3), Reach(3), Crash(3)]
  const Refused: seq<Event> := [Boot(1), Reach(1), Hear(1)]
  const Asking: seq<Event> := [Pass(10000), Timer(1, true), Pass(5000)]
  const AskingAgain: seq<Event> := [Reach(1), Pass(5000), Timer(1, true)]
  const GrantedTwice: seq<Event> := [Hear(1), Pass(10000), Reach(1)]
  const GivenUp: seq<Event> := [Timer(1, false), Reach(1), Hear(1)]
  const TakenOver: seq<Event> := [Boot(2), Reach(2), Hear(2)]

  function Empty(): World {
    World(0, Free, map[], {})
  }

  function AfterHolder(): World {
    World(0, Held(3, 15000), map[], {3})
  }

  function AfterRefused(): World {
    World(0, Held(3, 15000), map[1 := NewFeed(0).(count := 1, settled := true, nextBeat := 10000)], {3, 1})
  }

  function AfterAsking(): World {
    World(15000, Held(3, 15000),
          map[1 := NewFeed(0).(count := 2, outbox := [Sent(2, Acquire(1))], settled := true, nextBeat := 20000)],
            {3, 1})
  }

  function AfterAskingAgain(): World {
    World(20000, Held(1, 30000),
          map[1 := NewFeed(0).(count := 3, outbox := [Sent(3, Acquire(1))],
                               inbox := [Answer(2, Acquire(1), true, 15000)],
                               granted := 2, grantedAt := 15000, settled := true, nextBeat := 30000)], {3, 1})
  }

  function AfterGrantedTwice(): World {
    World(30000, Held(1, 45000),
          map[1 := NewFeed(0).(isOwned := true, since := 15000, basis := 2, count := 3,
                               inbox := [Answer(3, Acquire(1), true, 30000)],
                               granted := 3, grantedAt := 30000, settled := true, nextBeat := 30000)], {3, 1})
  }

  /** Feed 1 owns again, on a grant of this moment that it has itself released. */
  function Misled(): Feed {
    NewFeed(0).(isOwned := true, since := 30000, basis := 3, count := 4, lastRelease := 4,
                inbox := [Answer(4, Release(1), true, 30000)],
                granted := 3, grantedAt := 30000, freed := 4, settled := true, nextBeat := 40000)
  }

  function AfterGivenUp(): World {
    World(30000, Free, map[1 := Misled()], {3, 1})
  }

  function AfterTakenOver(): World {
    World(30000, Held(2, 45000),
          map[1 := Misled(),
              2 := NewFeed(30000).(isOwned := true, since := 30000, basis := 1, count := 1,
                                   granted := 1, grantedAt := 30000, settled := true, nextBeat := 40000)], {3, 1, 2})
  }

  lemma ToHolder()
    ensures Next(Next(Next(Empty(), Boot(3)), Reach(3)), Crash(3)) == AfterHolder()
  {
    var w := Next(Next(Empty(), Boot(3)), Reach(3));
    assert w.lease == Held(3, 15000);
    assert Next(w, Crash(3)).feeds == map[];
  }

  lemma ToRefused()
    ensures Next(Next(Next(AfterHolder(), Boot(1)), Reach(1)), Hear(1)) == AfterRefused()
  {
    var w := Next(Next(AfterHolder(), Boot(1)), Reach(1));
    assert w.feeds[1].outbox == [] && w.feeds[1].inbox == [Answer(1, Acquire(1), false, 0)];
    var w' := Next(w, Hear(1));
    assert w'.feeds[1].inbox == [] && w'.feeds[1] == AfterRefused().feeds[1];
    assert w'.feeds == AfterRefused().feeds;
  }

  lemma ToAsking()
    ensures Next(Next(Next(AfterRefused(), Pass(10000)), Timer(1, true)), Pass(5000)) == AfterAsking()
  {
    var w := Next(Next(AfterRefused(), Pass(10000)), Timer(1, true));
    assert w.feeds[1].outbox == [Sent(2, Acquire(1))] && w.feeds[1] == AfterAsking().feeds[1];
    assert w.feeds == AfterAsking().feeds;
  }

  lemma ToAskingAgain()
    ensures Next(Next(Next(AfterAsking(), Reach(1)), Pass(5000)), Timer(1, true)) == AfterAskingAgain()
  {
    var w := Next(Next(AfterAsking(), Reach(1)), Pass(5000));
    assert w.feeds[1].inbox == [Answer(2, Acquire(1), true, 15000)] && w.feeds[1].outbox == [];
    var w' := Next(w, Timer(1, true));
    assert w'.feeds[1].outbox == [Sent(3, Acquire(1))] && w'.feeds[1] == AfterAskingAgain().feeds[1];
    assert w'.feeds == AfterAskingAgain().feeds;
  }

  lemma ToGrantedTwice()
    ensures Next(Next(Next(AfterAskingAgain(), Hear(1)), Pass(10000)), Reach(1)) == AfterGrantedTwice()
  {
    var w := Next(Next(AfterAskingAgain(), Hear(1)), Pass(10000));
    assert w.feeds[1].inbox == [] && w.feeds[1].isOwned;
    var w' := Next(w, Reach(1));
    assert w'.feeds[1].outbox == [] && w'.feeds[1].inbox == [Answer(3, Acquire(1), true, 30000)];
    assert w'.feeds[1] == AfterGrantedTwice().feeds[1];
    assert w'.feeds == AfterGrantedTwice().feeds;
  }

  lemma ToGivenUp()
    ensures Next(Next(Next(AfterGrantedTwice(), Timer(1, false)), Reach(1)), Hear(1)) == AfterGivenUp()
  {
    var w := Next(Next(AfterGrantedTwice(), Timer(1, false)), Reach(1));
    assert w.lease == Free && w.feeds[1].outbox == [];
    assert w.feeds[1].inbox == [Answer(3, Acquire(1), true, 30000), Answer(4, Release(1), true, 30000)];
    assert Next(w, Hear(1)).feeds == AfterGivenUp().feeds;
  }

  lemma ToTakenOver()
    ensures Next(Next(Next(AfterGivenUp(), Boot(2)), Reach(2)), Hear(2)) == AfterTakenOver()
  {
    var w := Next(Next(AfterGivenUp(), Boot(2)), Reach(2));
    assert w.lease == Held(2, 45000) && w.feeds[2].inbox == [Answer(1, Acquire(2), true, 30000)]
      && w.feeds[2].outbox == [];
    var w' := Next(w, Hear(2));
    assert w'.feeds[1] == Misled() && w'.feeds[2] == AfterTakenOver().feeds[2] && w'.feeds.Keys == {1, 2};
    assert w'.feeds == AfterTakenOver().feeds;
  }

  lemma RunMore(w: World, events: seq<Event>, e: Event)
    ensures Run(w, events + [e]) == Next(Run(w, events), e)
  {
    assert (events + [e])[..|events + [e]| - 1] == events;
  }

  lemma {:induction false} RunJoin(w: World, first: seq<Event>, more: seq<Event>)
    ensures Run(w, first + more) == Run(Run(w, first), more)
  {
    if more == [] {
      assert first + more == first;
    } else {
      var init, last := more[..|more| - 1], more[|more| - 1];
      RunJoin(w, first, init);
      RunMore(w, first + init, last);
      assert first + more == (first + init) + [last];
    }
  }

  lemma RunThree(w: World, a: Event, b: Event, c: Event)
    ensures Run(w, [a, b, c]) == Next(Next(Next(w, a), b), c)
  {
    hide Next;
    RunMore(w, [], a);
    RunMore(w, [a], b);
    RunMore(w, [a, b], c);
    assert [] + [a] == [a] && [a] + [b] == [a, b] && [a, b] + [c] == [a, b, c];
  }

  lemma RunToAskingAgain()
    ensures Run(Empty(), Holder + Refused + Asking + AskingAgain) == AfterAskingAgain()
  {
    ToHolder();
    ToRefused();
    ToAsking();
    ToAskingAgain();
    hide Next, Run, Empty, AfterHolder, AfterRefused, AfterAsking, AfterAskingAgain;
    RunThree(Empty(), Boot(3), Reach(3), Crash(3));
    RunThree(AfterHolder(), Boot(1), Reach(1), Hear(1));
    RunThree(AfterRefused(), Pass(10000), Timer(1, true), Pass(5000));
    RunThree(AfterAsking(), Reach(1), Pass(5000), Timer(1, true));
    RunJoin(Empty(), Holder, Refused);
    RunJoin(Empty(), Holder + Refused, Asking);
    RunJoin(Empty(), Holder + Refused + Asking, AskingAgain);
  }

  lemma RunToTakenOver()
    ensures Run(AfterAskingAgain(), GrantedTwice + GivenUp + TakenOver) == AfterTakenOver()
  {
    ToGrantedTwice();
    ToGivenUp();
    ToTakenOver();
    hide Next, Run, AfterAskingAgain, AfterGrantedTwice, AfterGivenUp, AfterTakenOver;
    RunThree(AfterAskingAgain(), Hear(1), Pass(10000), Reach(1));
    RunThree(AfterGrantedTwice(), Timer(1, false), Reach(1), Hear(1));
    RunThree(AfterGivenUp(), Boot(2), Reach(2), Hear(2));
    RunJoin(AfterAskingAgain(), GrantedTwice, GivenUp);
    RunJoin(AfterAskingAgain(), GrantedTwice + GivenUp, TakenOver);
  }

  /** An answer that comes after the feed gave the lease up makes it an owner again, on a grant only seconds
      old, while another feed takes the lease: two running feeds own feed:global at once. */
  lemma LateGrantBreaksExclusion()
    ensures var end := Run(Empty(), Holder + Refused + Asking + AskingAgain + (GrantedTwice + GivenUp + TakenOver));
            && Start(Empty()) && Fresh(end, 1) && Fresh(end, 2) && !end.feeds[1].stopped
            && end.lease == Held(2, 45000) && end.feeds[1].granted < end.feeds[1].freed
  {
    assert Start(Empty());
    hide Run, Empty;
    RunToAskingAgain();
    RunToTakenOver();
    RunJoin(Empty(), Holder + Refused + Asking + AskingAgain, GrantedTwice + GivenUp + TakenOver);
  }
}
