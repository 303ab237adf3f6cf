/** The lease code of the engine and of the feed, against one Redis. */
module LeaseServices {
  import opened Prelude
  import opened Liquidity
  import opened Leases

  datatype Key = EngineSymbol(symbol: Symbol) | FeedGlobal

  function At(keys: map<Key, Lease>, k: Key): Lease {
    if k in keys then keys[k] else Free
  }

  /** One command was performed on the keys of these symbols, once each. */
  ghost predicate Performed(before: map<Key, Lease>, after: map<Key, Lease>, now: int, c: Command,
                            symbols: set<Symbol>) {
    forall k :: At(after, k) == if k.EngineSymbol? && k.symbol in symbols then Perform(At(before, k), now, c).0
      else At(before, k)
  }

  lemma PerformedOnce(before: map<Key, Lease>, middle: map<Key, Lease>, after: map<Key, Lease>, now: int, c: Command,
                      symbols: set<Symbol>, s: Symbol)
    requires Performed(before, middle, now, c, symbols) && s !in symbols
    requires after == middle[EngineSymbol(s) := Perform(At(middle, EngineSymbol(s)), now, c).0]
    ensures Performed(before, after, now, c, symbols + {s})
    ensures At(middle, EngineSymbol(s)) == At(before, EngineSymbol(s))
  {
    hide Perform;
  }

  /** What can go wrong with a command: it is not performed, or its answer does not arrive. */
  datatype Trouble = NoTrouble | Unsent | Unanswered

  /** The symbols whose command was sent. */
  function Sent(symbols: set<Symbol>, trouble: Symbol -> Trouble): set<Symbol> {
    set s | s in symbols && !trouble(s).Unsent?
  }

  /** A command and its answer, as the caller sees them. */
  function Exchange(l: Lease, now: int, c: Command, trouble: Trouble): (Lease, Option<bool>) {
    match trouble
    case NoTrouble => (Perform(l, now, c).0, Some(Perform(l, now, c).1))
    case Unsent => (l, None)
    case Unanswered => (Perform(l, now, c).0, None)
  }

  /** The symbols whose command was refused, and the refusal heard. */
  ghost function Refused(before: map<Key, Lease>, now: int, c: Command, symbols: set<Symbol>,
                         trouble: Symbol -> Trouble): set<Symbol>
  {
    set s | s in symbols && Exchange(At(before, EngineSymbol(s)), now, c, trouble(s)).1 == Some(false)
  }

  function SymbolsIn(wanted: seq<Symbol>): set<Symbol> {
    set s | s in wanted
  }

  /** The i-th symbol can be acquired: nobody holds it, and it was not listed before. */
  predicate Acquirable(before: map<Key, Lease>, now: int, wanted: seq<Symbol>, i: nat)
    requires i < |wanted|
  {
    !Live(At(before, EngineSymbol(wanted[i])), now) && wanted[i] !in wanted[..i]
  }

  /** The first i symbols were free and are taken. */
  ghost predicate Taken(before: map<Key, Lease>, after: map<Key, Lease>, now: int, t: Token, wanted: seq<Symbol>,
                        i: nat)
  {
    && i <= |wanted| && (forall n: nat | n < i :: Acquirable(before, now, wanted, n))
    && (forall s | s in wanted[..i] :: At(after, EngineSymbol(s)) == Held(t, now + TTL))
    && (forall k: Key | !k.EngineSymbol? || k.symbol !in wanted[..i] :: At(after, k) == At(before, k))
  }

  lemma NothingTaken(before: map<Key, Lease>, now: int, t: Token, wanted: seq<Symbol>)
    ensures Taken(before, before, now, t, wanted, 0) && SymbolsIn(wanted[..0]) == {}
  {}

  lemma TakenOrRefused(before: map<Key, Lease>, middle: map<Key, Lease>, after: map<Key, Lease>, now: int, t: Token,
                       wanted: seq<Symbol>, i: nat, ok: bool)
    requires Taken(before, middle, now, t, wanted, i) && i < |wanted|
    requires var (lease, done) := Perform(At(middle, EngineSymbol(wanted[i])), now, Acquire(t));
             after == middle[EngineSymbol(wanted[i]) := lease] && ok == done
    ensures ok <==> Acquirable(before, now, wanted, i)
    ensures ok ==> Taken(before, after, now, t, wanted, i + 1)
    ensures SymbolsIn(wanted[..i + 1]) == SymbolsIn(wanted[..i]) + {wanted[i]}
    ensures forall k: Key | !k.EngineSymbol? || k.symbol !in wanted :: At(after, k) == At(before, k)
  {
    assert wanted[..i + 1] == wanted[..i] + [wanted[i]];
    assert wanted[i] in wanted;
  }

  lemma AllTaken(before: map<Key, Lease>, after: map<Key, Lease>, now: int, t: Token, wanted: seq<Symbol>)
    requires Taken(before, after, now, t, wanted, |wanted|)
    ensures forall i: nat | i < |wanted| :: Acquirable(before, now, wanted, i)
    ensures forall s | s in wanted :: At(after, EngineSymbol(s)) == Held(t, now + TTL)
    ensures forall k: Key | !k.EngineSymbol? || k.symbol !in wanted :: At(after, k) == At(before, k)
    ensures SymbolsIn(wanted[..|wanted|]) == SymbolsIn(wanted)
  {
    assert wanted[..|wanted|] == wanted;
  }

  /** Where the loop over the owned symbols stands: `todo` is still to be visited. */
  ghost predicate Beaten(owned: set<Symbol>, owned': set<Symbol>, before: map<Key, Lease>, after: map<Key, Lease>,
                         now: int, c: Command, todo: set<Symbol>, trouble: Symbol -> Trouble)
  {
    && owned' == owned - Refused(before, now, c, owned - todo, trouble)
    && Performed(before, after, now, c, Sent(owned - todo, trouble)) && todo <= owned
  }

  lemma BeatStarts(owned: set<Symbol>, before: map<Key, Lease>, now: int, c: Command, trouble: Symbol -> Trouble)
    ensures Beaten(owned, owned, before, before, now, c, owned, trouble)
  {
    hide Perform;
  }

  lemma BeatMoves(owned: set<Symbol>, owned': set<Symbol>, owned'': set<Symbol>, before: map<Key, Lease>,
                  middle: map<Key, Lease>, after: map<Key, Lease>, now: int, c: Command, todo: set<Symbol>, s: Symbol,
                  trouble: Symbol -> Trouble)
    requires Beaten(owned, owned', before, middle, now, c, todo, trouble) && s in todo
    requires after == if trouble(s).Unsent? then middle
      else middle[EngineSymbol(s) := Perform(At(middle, EngineSymbol(s)), now, c).0]
    requires owned'' == owned'
      - (if Exchange(At(middle, EngineSymbol(s)), now, c, trouble(s)).1 == Some(false) then {s} else {})
    ensures Beaten(owned, owned'', before, after, now, c, todo - {s}, trouble)
  {
    hide Perform, Exchange;
    var visited := owned - todo;
    assert owned - (todo - {s}) == visited + {s};
    assert At(middle, EngineSymbol(s)) == At(before, EngineSymbol(s));
    RefusedMore(before, now, c, visited, s, trouble);
    if trouble(s).Unsent? {
      assert Sent(visited + {s}, trouble) == Sent(visited, trouble);
    } else {
      PerformedOnce(before, middle, after, now, c, Sent(visited, trouble), s);
      assert Sent(visited + {s}, trouble) == Sent(visited, trouble) + {s};
    }
  }

  lemma RefusedMore(before: map<Key, Lease>, now: int, c: Command, visited: set<Symbol>, s: Symbol,
                    trouble: Symbol -> Trouble)
    ensures var answer := Exchange(At(before, EngineSymbol(s)), now, c, trouble(s)).1;
            Refused(before, now, c, visited + {s}, trouble)
              == Refused(before, now, c, visited, trouble) + (if answer == Some(false) then {s} else {})
  {
    hide Exchange, At;
  }

  lemma BeatEnds(owned: set<Symbol>, owned': set<Symbol>, before: map<Key, Lease>, after: map<Key, Lease>, now: int,
                 c: Command, trouble: Symbol -> Trouble)
    requires Beaten(owned, owned', before, after, now, c, {}, trouble)
    ensures owned' == owned - Refused(before, now, c, owned, trouble)
    ensures Performed(before, after, now, c, Sent(owned, trouble))
  {
    hide Perform, Exchange, Performed, Refused, Sent;
    assert owned - {} == owned;
  }

  class Redis {
    var now: int
    var keys: map<Key, Lease>

    constructor (time: int)
      ensures now == time && keys == map[]
    {
      now, keys := time, map[];
    }

    function Get(k: Key): Lease
      reads this
    {
      At(keys, k)
    }

    /** One command on one key. */
    method Eval(k: Key, c: Command) returns (ok: bool)
      modifies this`keys
      ensures keys == old(keys)[k := Perform(old(Get(k)), now, c).0] && ok == Perform(old(Get(k)), now, c).1
    {
      var (lease, done) := Perform(Get(k), now, c);
      keys := keys[k := lease];
      ok := done;
    }

    /** The same, over a connection that may fail on the way there or back. */
    method TryEval(k: Key, c: Command, trouble: Trouble) returns (answer: Option<bool>)
      modifies this`keys
      ensures keys == if trouble.Unsent? then old(keys) else old(keys)[k := Perform(old(Get(k)), now, c).0]
      ensures Get(k) == Exchange(old(Get(k)), now, c, trouble).0 && answer == Exchange(old(Get(k)), now, c, trouble).1
    {
      hide Perform;
      if trouble.Unsent? { return None; }
      var ok := Eval(k, c);
      answer := if trouble.Unanswered? then None else Some(ok);
    }
  }

  /** The lease part of an engine process. */
  class EngineLeaseHolder {
    const redis: Redis
    const token: Token
    var ownedSymbols: set<Symbol>

    constructor (r: Redis, t: Token)
      ensures redis == r && token == t && ownedSymbols == {}
    {
      redis, token, ownedSymbols := r, t, {};
    }

    function LeaseOf(symbol: Symbol): Lease
      reads redis
    {
      redis.Get(EngineSymbol(symbol))
    }

    /** Takes the assigned symbols in turn; the first refusal ends the process. It starts exactly when none of
        them is held by anybody and none is listed twice. */
    method AcquireLeases(wanted: seq<Symbol>) returns (exited: bool)
      modifies this`ownedSymbols, redis`keys
      ensures exited <==> exists i: nat | i < |wanted| :: !Acquirable(old(redis.keys), redis.now, wanted, i)
      ensures !exited ==> ownedSymbols == old(ownedSymbols) + SymbolsIn(wanted)
      ensures !exited ==> forall s | s in wanted :: LeaseOf(s) == Held(token, redis.now + TTL)
      ensures forall k: Key | !k.EngineSymbol? || k.symbol !in wanted :: At(redis.keys, k) == At(old(redis.keys), k)
    {
      hide Perform, Taken, SymbolsIn, Acquirable;
      ghost var before, owned := redis.keys, ownedSymbols;
      NothingTaken(before, redis.now, token, wanted);
      for i := 0 to |wanted|
        invariant Taken(before, redis.keys, redis.now, token, wanted, i)
        invariant ownedSymbols == owned + SymbolsIn(wanted[..i])
      {
        var symbol := wanted[i];
        ghost var middle := redis.keys;
        var acquired := redis.Eval(EngineSymbol(symbol), Acquire(token));
        TakenOrRefused(before, middle, redis.keys, redis.now, token, wanted, i, acquired);
        if !acquired { return true; }
        ownedSymbols := ownedSymbols + {symbol};
      }
      AllTaken(before, redis.keys, redis.now, token, wanted);
      return false;
    }

    /** One beat: every owned lease is prolonged, or its symbol given up. A script that fails, or whose answer is
        lost, gives nothing up; in the second case the lease is prolonged all the same. */
    method Heartbeat(trouble: Symbol -> Trouble)
      modifies this`ownedSymbols, redis`keys
      ensures ownedSymbols
        == old(ownedSymbols) - Refused(old(redis.keys), redis.now, Renew(token), old(ownedSymbols), trouble)
      ensures Performed(old(redis.keys), redis.keys, redis.now, Renew(token), Sent(old(ownedSymbols), trouble))
    {
      hide Perform, Exchange, Beaten;
      var symbols := ownedSymbols;
      ghost var owned, before := ownedSymbols, redis.keys;
      BeatStarts(owned, before, redis.now, Renew(token), trouble);
      while symbols != {}
        invariant Beaten(owned, ownedSymbols, before, redis.keys, redis.now, Renew(token), symbols, trouble)
        decreases |symbols|
      {
        var symbol :| symbol in symbols;
        ghost var middle, owned' := redis.keys, ownedSymbols;
        RenewOne(symbol, trouble(symbol));
        BeatMoves(owned, owned', ownedSymbols, before, middle, redis.keys, redis.now, Renew(token), symbols, symbol,
                  trouble);
        symbols := symbols - {symbol};
      }
      BeatEnds(owned, ownedSymbols, before, redis.keys, redis.now, Renew(token), trouble);
    }

    /** The loop's body: only a refusal that is heard gives the symbol up. */
    method RenewOne(symbol: Symbol, trouble: Trouble)
      modifies this`ownedSymbols, redis`keys
      ensures redis.keys == if trouble.Unsent? then old(redis.keys)
        else old(redis.keys)[EngineSymbol(symbol) := Perform(old(LeaseOf(symbol)), redis.now, Renew(token)).0]
      ensures ownedSymbols == old(ownedSymbols)
        - (if Exchange(old(LeaseOf(symbol)), redis.now, Renew(token), trouble).1 == Some(false) then {symbol} else {})
    {
      hide Perform, Exchange;
      var answer := redis.TryEval(EngineSymbol(symbol), Renew(token), trouble);
      if answer == Some(false) { ownedSymbols := ownedSymbols - {symbol}; }
    }

    /** Gives every owned lease back, deleting it only where it is still this process's. */
    method ReleaseLeases()
      modifies this`ownedSymbols, redis`keys
      ensures ownedSymbols == {}
      ensures Performed(old(redis.keys), redis.keys, redis.now, Release(token), old(ownedSymbols))
    {
      hide Perform, Performed;
      var symbols := ownedSymbols;
      ghost var before, visited: set<Symbol> := redis.keys, {};
      NothingPerformed(before, redis.now, Release(token));
      while symbols != {}
        invariant symbols !! visited && symbols + visited == old(ownedSymbols)
        invariant Performed(before, redis.keys, redis.now, Release(token), visited)
        decreases |symbols|
      {
        var symbol :| symbol in symbols;
        ghost var middle := redis.keys;
        var released := redis.Eval(EngineSymbol(symbol), Release(token));
        PerformedOnce(before, middle, redis.keys, redis.now, Release(token), visited, symbol);
        symbols := symbols - {symbol};
        visited := visited + {symbol};
      }
      assert visited == old(ownedSymbols);
      ownedSymbols := {};
    }
  }

  lemma NothingPerformed(before: map<Key, Lease>, now: int, c: Command)
    ensures Performed(before, before, now, c, {})
  {}

  // ---- the feed -------------------------------------------------------------------------------

  /** The lease and the feed's belief after an attempt to acquire. */
  function AfterAttempt(l: Lease, now: int, t: Token, owned: bool, trouble: Trouble): (Lease, bool) {
    var (lease, answer) := Exchange(l, now, Acquire(t), trouble);
    (lease, owned || answer == Some(true))
  }

  /** ... after a heartbeat: acquire, prolong or give up, depending on belief and session. */
  function AfterBeat(l: Lease, now: int, t: Token, owned: bool, open: bool, trouble: Trouble): (Lease, bool) {
    if !owned then (if open then AfterAttempt(l, now, t, false, trouble) else (l, false))
    else if !open then (Exchange(l, now, Release(t), trouble).0, false)
    else
      var (lease, answer) := Exchange(l, now, Renew(t), trouble);
      (lease, answer == Some(true))
  }

  /** ... after stop(). */
  function AfterStop(l: Lease, now: int, t: Token, owned: bool, trouble: Trouble): Lease {
    if owned then Exchange(l, now, Release(t), trouble).0 else l
  }

  /** The feed: it may own feed:global, and simulates only while it does. */
  class FeedLeaseService {
    const redis: Redis
    const token: Token
    const disabled: bool
    var isOwned: bool
    var simulating: bool

    constructor (r: Redis, t: Token, off: bool)
      ensures redis == r && token == t && disabled == off && Valid() && !isOwned
    {
      redis, token, disabled, isOwned, simulating := r, t, off, false, false;
    }

    predicate Valid()
      reads this
    {
      simulating ==> isOwned && !disabled
    }

    function Lease(): Lease
      reads this, redis
    {
      redis.Get(FeedGlobal)
    }

    method StartSimulations(open: bool)
      requires isOwned && Valid()
      modifies this`simulating
      ensures simulating == ((open && !disabled) || old(simulating))
    {
      if disabled { return; }
      if open { simulating := true; }
    }

    method StopSimulations()
      modifies this`simulating
      ensures !simulating
    {
      simulating := false;
    }

    /** A grant the feed hears of makes it the owner, and the first one starts the simulations if the session is
        open by then. */
    method TryAcquireLease(openThen: bool, trouble: Trouble)
      requires Valid()
      modifies this, redis`keys
      ensures Valid() && (Lease(), isOwned) == AfterAttempt(old(Lease()), redis.now, token, old(isOwned), trouble)
      ensures simulating == (old(simulating) || (isOwned && !old(isOwned) && openThen && !disabled))
      ensures forall k | k != FeedGlobal :: redis.Get(k) == old(redis.Get(k))
    {
      hide Perform;
      var answer := redis.TryEval(FeedGlobal, Acquire(token), trouble);
      if answer == Some(true) && !isOwned {
        isOwned := true;
        StartSimulations(openThen);
      }
    }

    /** The timer: acquire, prolong, or give up, depending on ownership and session. Simulations run on while the
        lease is kept, and begin with it. */
    method Heartbeat(open: bool, openThen: bool, trouble: Trouble)
      requires Valid()
      modifies this, redis`keys
      ensures Valid() && (Lease(), isOwned) == AfterBeat(old(Lease()), redis.now, token, old(isOwned), open, trouble)
      ensures simulating == (isOwned && (if old(isOwned) then old(simulating) else openThen && !disabled))
      ensures forall k | k != FeedGlobal :: redis.Get(k) == old(redis.Get(k))
    {
      hide Perform, Exchange;
      if !isOwned {
        if open { TryAcquireLease(openThen, trouble); }
        return;
      }
      if !open {
        isOwned := false;
        StopSimulations();
        var released := redis.TryEval(FeedGlobal, Release(token), trouble);
        return;
      }
      var renewed := redis.TryEval(FeedGlobal, Renew(token), trouble);
      if renewed != Some(true) {
        isOwned := false;
        StopSimulations();
      }
    }

    /** Simulations end, and a lease the feed knows of is given back - also when it was lost meanwhile, which leaves
        its new owner alone. One it does not know of is kept until it runs out. */
    method Stop(trouble: Trouble)
      modifies this`simulating, redis`keys
      ensures !simulating && Lease() == AfterStop(old(Lease()), redis.now, token, isOwned, trouble)
      ensures !trouble.Unsent? ==>
          (Holds(Lease(), redis.now, token) <==> !isOwned && Holds(old(Lease()), redis.now, token))
      ensures forall t | t != token :: Holds(Lease(), redis.now, t) <==> Holds(old(Lease()), redis.now, t)
      ensures forall k | k != FeedGlobal :: redis.Get(k) == old(redis.Get(k))
    {
      StopSimulations();
      if isOwned { var released := redis.TryEval(FeedGlobal, Release(token), trouble); }
    }
  }
}
