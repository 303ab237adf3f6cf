/** Recording double-entry transactions and reconciling balances against them. */
module LedgerServices {
  import opened Prelude
  import opened Liquidity
  import opened Domain
  import opened Ledger
  import opened Store

  /** Running net per asset seen so far. */
  ghost predicate NetsSoFar(balances: map<Asset, real>, entries: seq<Entry>) {
    && (forall a | a in balances :: balances[a] == Net(entries, a))
    && (forall a | a !in balances :: Net(entries, a) == 0.0)
  }

  lemma NextNet(balances: map<Asset, real>, entries: seq<Entry>, i: nat, now: real)
    requires i < |entries| && NetsSoFar(balances, entries[..i])
    requires now == (if entries[i].asset in balances then balances[entries[i].asset] else 0.0)
      + entries[i].debit - entries[i].credit
    ensures NetsSoFar(balances[entries[i].asset := now], entries[..i + 1])
  {
    assert entries[..i + 1] == entries[..i] + [entries[i]];
    var next := balances[entries[i].asset := now];
    forall a ensures Net(entries[..i + 1], a) == Net(entries[..i], a) + NetOf(entries[i], a) {
      Append(entries[..i], entries[i], PlatformCash, a);
    }
  }

  class LedgerService {

    /** Refuses negative amounts, in the order of the records, and then any asset that does not balance. */
    static method ValidateEntries(entries: seq<Entry>) returns (refusal: Option<Failure>)
      ensures refusal == EntriesRefusal(entries)
    {
      var balances: map<Asset, real> := map[];
      for i := 0 to |entries|
        invariant NetsSoFar(balances, entries[..i])
        invariant forall k | 0 <= k < i :: !IsNegative(entries[k])
      {
        var e := entries[i];
        if e.debit < 0.0 || e.credit < 0.0 { return Some(NegativeEntry); }
        var current := if e.asset in balances then balances[e.asset] else 0.0;
        NextNet(balances, entries, i, current + e.debit - e.credit);
        balances := balances[e.asset := current + e.debit - e.credit];
      }
      assert entries[..|entries|] == entries;
      var assets := balances.Keys;
      while assets != {}
        invariant assets <= balances.Keys
        invariant forall a | a in balances && a !in assets :: balances[a] == 0.0
      {
        var asset :| asset in assets;
        if balances[asset] != 0.0 { return Some(LedgerImbalance); }
        assets := assets - {asset};
      }
      return None;
    }

    /** Appends validated records to the ledger. */
    static method RecordTransaction(tx: Database, entries: seq<Entry>) returns (refusal: Option<Failure>)
      modifies tx
      ensures refusal == EntriesRefusal(entries)
      ensures tx.State() == if refusal.None? then old(tx.State()).(ledger := old(tx.ledger) + entries)
        else old(tx.State())
    {
      refusal := ValidateEntries(entries);
      if refusal.None? { tx.ledger := tx.ledger + entries; }
    }

    /** Credits minus debits of one account in one asset. */
    static method AccountBalance(db: Database, account: Account, asset: Asset) returns (balance: real)
      ensures balance == Balance(db.ledger, account, asset)
    {
      balance := 0.0;
      for i := 0 to |db.ledger|
        invariant balance == Balance(db.ledger[..i], account, asset)
      {
        var e := db.ledger[i];
        Append(db.ledger[..i], e, account, asset);
        assert db.ledger[..i + 1] == db.ledger[..i] + [e];
        if e.account == account && e.asset == asset { balance := balance + e.credit - e.debit; }
      }
      assert db.ledger[..|db.ledger|] == db.ledger;
    }

    /** Compares a portfolio's cash with an account the caller names: its own user's cash account, if all is well. */
    static method ReconcilePortfolioCash(db: Database, pid: Id, account: Account)
      returns (r: Result<(bool, real, real), Failure>)
      ensures pid !in db.portfolios ==> r == Err(NotFound)
      ensures pid in db.portfolios ==>
        r == Ok((Balance(db.ledger, account, Fiat) == db.portfolios[pid].totalCash, Balance(db.ledger, account, Fiat),
                 db.portfolios[pid].totalCash))
      ensures r.Ok? && account == UserCash(db.portfolios[pid].userId) ==>
          (r.value.0 <==> CashReconciles(db.State(), pid))
    {
      if pid !in db.portfolios { return Err(NotFound); }
      var balance := AccountBalance(db, account, Fiat);
      return Ok((balance == db.portfolios[pid].totalCash, balance, db.portfolios[pid].totalCash));
    }

    /** Compares a position with an account in a symbol the caller names, which must be the position's. */
    static method ReconcilePosition(db: Database, h: Holding, account: Account, assetSymbol: Symbol)
      returns (r: Result<(bool, real, real), Failure>)
      ensures h !in db.positions ==> r == Err(NotFound)
      ensures h in db.positions && h.symbol != assetSymbol ==> r == Err(SymbolMismatch)
      ensures h in db.positions && h.symbol == assetSymbol ==>
        var balance := Balance(db.ledger, account, Security(assetSymbol));
        r == Ok((balance == db.positions[h].quantity, balance, db.positions[h].quantity))
      ensures r.Ok? && h.portfolioId in db.portfolios ==>
        account == UserSecurity(db.portfolios[h.portfolioId].userId, h.symbol) ==>
        (r.value.0 <==> SharesReconcile(db.State(), h))
    {
      if h !in db.positions { return Err(NotFound); }
      if h.symbol != assetSymbol { return Err(SymbolMismatch); }
      var balance := AccountBalance(db, account, Security(assetSymbol));
      return Ok((balance == db.positions[h].quantity, balance, db.positions[h].quantity));
    }
  }
}
