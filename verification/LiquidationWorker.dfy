/** The liquidation worker's transaction: cancel, or rank the positions and open one order. */
module LiquidationWorkers {
  import opened Prelude
  import opened Domain
  import opened Valuation
  import opened LiquidationSpec
  import opened Store
  import opened ValuationServices

  /** In ranking order: nobody later ranks before somebody earlier. */
  ghost predicate Ranked(all: seq<Candidate>) {
    forall i, j | 0 <= i < j < |all| :: !RanksBefore(all[j], all[i])
  }

  lemma NotBeforeTransitive(a: Candidate, b: Candidate, c: Candidate)
    requires !RanksBefore(b, a) && !RanksBefore(c, b)
    ensures !RanksBefore(c, a)
  {
    NameOrderTotal(a.symbol.name, b.symbol.name);
    NameOrderTotal(b.symbol.name, c.symbol.name);
    NameOrderTotal(a.symbol.name, c.symbol.name);
    if RanksBefore(c, a) && RanksBefore(a, b) { RanksTransitive(c, a, b); }
  }

  lemma NothingRanked()
    ensures Ranked([])
  {}

  lemma Asymmetric(a: Candidate, b: Candidate)
    requires RanksBefore(a, b)
    ensures !RanksBefore(b, a)
  {
    NameOrderTotal(a.symbol.name, b.symbol.name);
  }

  lemma InsertedRanked(all: seq<Candidate>, c: Candidate, k: nat)
    requires Ranked(all) && k <= |all|
    requires k < |all| ==> !RanksBefore(all[k], c)
    requires forall i | 0 <= i < k :: RanksBefore(all[i], c)
    ensures Ranked(all[..k] + [c] + all[k..])
    ensures multiset(all[..k] + [c] + all[k..]) == multiset(all) + multiset{c}
  {
    assert all == all[..k] + all[k..];
    var r := all[..k] + [c] + all[k..];
    forall i, j | 0 <= i < j < |r| ensures !RanksBefore(r[j], r[i]) {
      if j == k { Asymmetric(all[i], c); }
      else if i == k && j > k + 1 { NotBeforeTransitive(c, all[k], all[j - 1]); }
    }
  }

  /** Some of a portfolio's liquidations cancelled. */
  function CancelSome(orders: map<Id, Order>, ids: set<Id>): map<Id, Order> {
    map id | id in orders :: if id in ids then orders[id].(status := CANCELLED) else orders[id]
  }

  lemma CancelOneMore(orders: map<Id, Order>, ids: set<Id>, id: Id)
    requires id in orders && id !in ids
    ensures CancelSome(orders, ids + {id}) == CancelSome(orders, ids)[id := orders[id].(status := CANCELLED)]
  {}

  ghost predicate CandidateFrom(positions: map<Holding, Position>, holdings: set<Holding>, prices: Prices,
                                c: Candidate)
  {
    exists h :: h in holdings && h in positions && c == CandidateOf(h.symbol, positions[h].quantity, prices)
  }

  lemma NoCandidateYet(positions: map<Holding, Position>, all: set<Holding>, prices: Prices)
    ensures forall c :: !CandidateFrom(positions, all - all, prices, c)
  {}

  lemma OneMoreCandidate(positions: map<Holding, Position>, all: set<Holding>, todo: set<Holding>, h: Holding,
                         prices: Prices)
    requires h in todo && todo <= all && h in positions
    ensures forall c :: CandidateFrom(positions, all - (todo - {h}), prices, c) <==>
        CandidateFrom(positions, all - todo, prices, c) || c == CandidateOf(h.symbol, positions[h].quantity, prices)
  {
    hide CandidateOf;
    assert all - (todo - {h}) == all - todo + {h};
  }

  lemma AllCandidates(db: Db, pid: Id, prices: Prices, all: set<Holding>)
    requires all == set h | h in db.positions && h.portfolioId == pid && db.positions[h].quantity != 0.0
    ensures forall c :: CandidateFrom(db.positions, all - {}, prices, c) <==> c in Candidates(db, pid, prices)
  {
    hide CandidateOf;
    assert all - {} == all;
  }

  class LiquidationWorker {

    /** The positions of a portfolio as candidates. */
    static method Collect(db: Database, pid: Id, prices: Prices) returns (candidates: seq<Candidate>)
      ensures forall c :: c in candidates <==> c in Candidates(db.State(), pid, prices)
    {
      hide CandidateOf, CandidateFrom;
      var todo := set h | h in db.positions && h.portfolioId == pid && db.positions[h].quantity != 0.0;
      ghost var all := todo;
      candidates := [];
      NoCandidateYet(db.positions, all, prices);
      while todo != {}
        invariant todo <= all <= db.positions.Keys
        invariant forall c :: c in candidates <==> CandidateFrom(db.positions, all - todo, prices, c)
        decreases |todo|
      {
        var h :| h in todo;
        var c := CandidateOf(h.symbol, db.positions[h].quantity, prices);
        OneMoreCandidate(db.positions, all, todo, h, prices);
        candidates := candidates + [c];
        todo := todo - {h};
      }
      AllCandidates(db.State(), pid, prices, all);
    }

    /** Sorted by the worker's comparator, by insertion. */
    static method Sort(candidates: seq<Candidate>) returns (sorted: seq<Candidate>)
      ensures Ranked(sorted) && multiset(sorted) == multiset(candidates)
    {
      hide RanksBefore, Ranked;
      sorted := [];
      NothingRanked();
      for i := 0 to |candidates|
        invariant Ranked(sorted) && multiset(sorted) == multiset(candidates[..i])
      {
        var c, k := candidates[i], 0;
        while k < |sorted| && RanksBefore(sorted[k], c)
          invariant 0 <= k <= |sorted|
          invariant forall n | 0 <= n < k :: RanksBefore(sorted[n], c)
        {
          k := k + 1;
        }
        InsertedRanked(sorted, c, k);
        assert candidates[..i + 1] == candidates[..i] + [c];
        sorted := sorted[..k] + [c] + sorted[k..];
      }
      assert candidates[..|candidates|] == candidates;
    }

    static method CancelAll(db: Database, active: set<Id>)
      requires active <= db.orders.Keys && forall id | id in db.orders :: db.orders[id].id == id
      modifies db
      ensures db.State() == old(db.State()).(orders := CancelSome(old(db.orders), active))
    {
      var remaining := active;
      while remaining != {}
        invariant remaining <= active
        invariant db.State() == old(db.State()).(orders := CancelSome(old(db.orders), active - remaining))
        decreases |remaining|
      {
        SomeMember(remaining);
        var id :| id in remaining;
        CancelOneMore(old(db.orders), active - remaining, id);
        assert active - (remaining - {id}) == (active - remaining) + {id};
        db.SetOrder(db.orders[id].(status := CANCELLED));
        remaining := remaining - {id};
        hide CancelSome;
      }
      assert active - remaining == active;
    }

    static method EvaluatePortfolio(db: Database, pid: Id, cache: PriceCache, ranking: Prices, open: bool, newId: Id)
      returns (failure: Option<Failure>)
      requires forall id | id in db.orders :: db.orders[id].id == id
      modifies db
      ensures (db.State(), failure) == Evaluate(old(db.State()), pid, cache.prices, ranking, open, newId)
    {
      hide Candidates, Equity, Maintenance, RanksBefore, CandidateOf, ToFixed4, FreeMargin;
      failure := None;
      if !open || pid !in db.portfolios || !db.portfolios[pid].isMarginEnabled { return; }
      var val := PortfolioValuationService.GetValuation(db, pid, Some(cache));
      if val.value.marginLevel.None? { return; }
      var level := val.value.marginLevel.value;
      var active := set id | id in db.orders && IsActiveLiquidation(db.State(), pid, id);
      if level >= 120.0 {
        CancelAll(db, active);
        assert db.State() == CancelLiquidations(old(db.State()), pid);
        return;
      }
      if level >= 100.0 { return; }
      AnyActive(db.State(), pid, active);
      if active != {} { return; }
      var candidates := Collect(db, pid, ranking);
      if candidates == [] {
        NoCandidates(db.State(), pid, ranking, candidates);
        return;
      }
      var ranked := Sort(candidates);
      FirstIsTop(db.State(), pid, ranking, candidates, ranked);
      var top := ranked[0];
      if top.notional <= 0.0 { return; }
      var o := LiquidationOrder(db.State(), pid, newId, top);
      if (o.userId, o.key) in db.byKey { return Some(DuplicateKey); }
      db.SetOrder(o);
      db.byKey := db.byKey[(o.userId, o.key) := o.id];
    }
  }

  lemma AnyActive(db: Db, pid: Id, active: set<Id>)
    requires active == set id | id in db.orders && IsActiveLiquidation(db, pid, id)
    ensures HasActiveLiquidation(db, pid) <==> active != {}
  {
    if active != {} {
      var id: Id :| id in active;
      assert IsActiveLiquidation(db, pid, id);
    }
    if HasActiveLiquidation(db, pid) {
      var id: Id :| id in db.orders && IsActiveLiquidation(db, pid, id);
      assert id in active;
    }
  }

  lemma NoCandidates(db: Db, pid: Id, prices: Prices, candidates: seq<Candidate>)
    requires forall c :: c in candidates <==> c in Candidates(db, pid, prices)
    ensures candidates == [] <==> Candidates(db, pid, prices) == {}
  {
    hide Candidates;
    if candidates != [] { assert candidates[0] in Candidates(db, pid, prices); }
  }

  /** The first of the sorted candidates is the top candidate of the specification. */
  lemma FirstIsTop(db: Db, pid: Id, prices: Prices, candidates: seq<Candidate>, ranked: seq<Candidate>)
    requires forall c :: c in candidates <==> c in Candidates(db, pid, prices)
    requires candidates != [] && Ranked(ranked) && multiset(ranked) == multiset(candidates)
    ensures ranked != [] && Candidates(db, pid, prices) != {} && ranked[0] == TopCandidate(db, pid, prices)
  {
    hide Candidates, RanksBefore;
    NoCandidates(db, pid, prices, candidates);
    assert |ranked| == |candidates| by { assert |multiset(ranked)| == |multiset(candidates)|; }
    forall c | c in Candidates(db, pid, prices) ensures !RanksBefore(c, ranked[0]) {
      assert c in multiset(candidates);
      assert c in ranked;
      var i :| 0 <= i < |ranked| && ranked[i] == c;
      if i == 0 { NotBeforeItself(c); }
    }
    assert ranked[0] in multiset(ranked);
    assert ranked[0] in candidates;
    TopIsUnique(db, pid, prices, ranked[0], TopCandidate(db, pid, prices));
  }

  lemma NotBeforeItself(c: Candidate)
    ensures !RanksBefore(c, c)
  {
    NameOrderTotal(c.symbol.name, c.symbol.name);
  }
}
