/** The double-entry ledger: what recordTransaction accepts, and how the ledger follows the balances it
    mirrors over whole runs. A user account's balance is its credits minus its debits. */
module Ledger {
  import opened Prelude
  import opened Sums
  import opened Liquidity
  import opened Domain
  import opened Trade
  import opened OrderSpec
  import opened Actions
  import opened Reservations
  import opened Steps

  function NetOf(e: Entry, asset: Asset): real {
    if e.asset == asset then e.debit - e.credit else 0.0
  }

  /** Debits minus credits of one asset. */
  function Net(entries: seq<Entry>, asset: Asset): real {
    if entries == [] then 0.0
    else Net(entries[..|entries| - 1], asset) + NetOf(entries[|entries| - 1], asset)
  }

  function CreditOf(e: Entry, account: Account, asset: Asset): real {
    if e.account == account && e.asset == asset then e.credit - e.debit else 0.0
  }

  /** Credits minus debits of one account in one asset. */
  function Balance(entries: seq<Entry>, account: Account, asset: Asset): real {
    if entries == [] then 0.0
    else Balance(entries[..|entries| - 1], account, asset) + CreditOf(entries[|entries| - 1], account, asset)
  }

  predicate IsNegative(e: Entry) {
    e.debit < 0.0 || e.credit < 0.0
  }

  /** Why a set of records is refused: a negative amount, or an asset that does not balance. */
  ghost function EntriesRefusal(entries: seq<Entry>): Option<Failure> {
    if exists i | 0 <= i < |entries| :: IsNegative(entries[i]) then Some(NegativeEntry)
    else if exists asset :: Net(entries, asset) != 0.0 then Some(LedgerImbalance)
    else None
  }

  lemma Append(entries: seq<Entry>, e: Entry, account: Account, asset: Asset)
    ensures Balance(entries + [e], account, asset) == Balance(entries, account, asset) + CreditOf(e, account, asset)
    ensures Net(entries + [e], asset) == Net(entries, asset) + NetOf(e, asset)
  {
    assert (entries + [e])[..|entries + [e]| - 1] == entries;
  }

  lemma AppendFour(entries: seq<Entry>, a: Entry, b: Entry, c: Entry, d: Entry, account: Account, asset: Asset)
    ensures Balance(entries + [a, b, c, d], account, asset)
         == Balance(entries, account, asset) + CreditOf(a, account, asset) + CreditOf(b, account, asset)
              + CreditOf(c, account, asset) + CreditOf(d, account, asset)
    ensures Net(entries + [a, b, c, d], asset)
         == Net(entries, asset) + NetOf(a, asset) + NetOf(b, asset) + NetOf(c, asset) + NetOf(d, asset)
  {
    Append(entries, a, account, asset);
    Append(entries + [a], b, account, asset);
    Append(entries + [a] + [b], c, account, asset);
    Append(entries + [a] + [b] + [c], d, account, asset);
    assert entries + [a, b, c, d] == entries + [a] + [b] + [c] + [d];
  }

  /** What the records of a fill add to an account and to an asset. */
  lemma FillEntriesMove(entries: seq<Entry>, o: Order, q: real, cost: real, account: Account, asset: Asset)
    ensures Balance(entries + FillEntries(o, q, cost), account, asset)
         == Balance(entries, account, asset)
              + (if account == UserCash(o.userId) && asset == Fiat then -Signed(o.side, cost) else 0.0)
              + (if account == PlatformCash && asset == Fiat then Signed(o.side, cost) else 0.0)
              + (if account == UserSecurity(o.userId, o.symbol) && asset == Security(o.symbol) then Signed(o.side, q)
                 else 0.0)
              + (if account == PlatformSecurity(o.symbol) && asset == Security(o.symbol) then -Signed(o.side, q)
                 else 0.0)
    ensures Net(entries + FillEntries(o, q, cost), asset) == Net(entries, asset)
  {
    var es := FillEntries(o, q, cost);
    AppendFour(entries, es[0], es[1], es[2], es[3], account, asset);
    assert es == [es[0], es[1], es[2], es[3]];
  }

  /** The records of a fill always balance, so they are refused exactly when an amount is negative: for a
      positive quantity, when the price is. */
  lemma FillEntriesValid(o: Order, dto: FillOrderDto)
    requires dto.quantity > 0.0
    ensures EntriesRefusal(FillEntries(o, dto.quantity, Cost(dto))) == if dto.price < 0.0 then Some(NegativeEntry)
      else None
    ensures Cost(dto) < 0.0 <==> dto.price < 0.0
  {
    SignOfCost(dto);
    hide Cost;
    var es := FillEntries(o, dto.quantity, Cost(dto));
    forall asset ensures Net(es, asset) == 0.0 {
      FillEntriesMove([], o, dto.quantity, Cost(dto), PlatformCash, asset);
      assert [] + es == es;
    }
    if dto.price < 0.0 { assert IsNegative(es[0]); }
  }

  lemma SignOfCost(dto: FillOrderDto)
    requires dto.quantity > 0.0
    ensures Cost(dto) < 0.0 <==> dto.price < 0.0
  {}

  // ---- the ledger over whole runs ------------------------------------------------------------

  function CashOf(u: Id): (Id, Portfolio) -> real {
    (pid: Id, p: Portfolio) => if p.userId == u then p.totalCash else 0.0
  }

  function PortfoliosOf(portfolios: map<Id, Portfolio>, u: Id): set<Id> {
    set pid | pid in portfolios && portfolios[pid].userId == u
  }

  function SharesOf(owned: set<Id>, symbol: Symbol): (Holding, Position) -> real {
    (h: Holding, pos: Position) => if h.portfolioId in owned && h.symbol == symbol then pos.quantity else 0.0
  }

  /** Ledger balance minus the cash of the user's portfolios, and the same for shares of a symbol. */
  ghost function CashDrift(db: Db, u: Id): real {
    Balance(db.ledger, UserCash(u), Fiat) - Sum(db.portfolios, CashOf(u))
  }

  ghost function SharesDrift(db: Db, u: Id, symbol: Symbol): real {
    Balance(db.ledger, UserSecurity(u, symbol), Security(symbol))
      - Sum(db.positions, SharesOf(PortfoliosOf(db.portfolios, u), symbol))
  }

  lemma QuietKeepsDrift(db: Db, db': Db, u: Id, symbol: Symbol)
    requires MoneyStays(db, db')
    ensures CashDrift(db', u) == CashDrift(db, u)
    ensures SharesDrift(db', u, symbol) == SharesDrift(db, u, symbol)
  {
    forall p | p in db.portfolios ensures CashOf(u)(p, db'.portfolios[p]) == CashOf(u)(p, db.portfolios[p]) {
      assert SameMoney(db.portfolios[p], db'.portfolios[p]);
    }
    SumAgree(db.portfolios, db'.portfolios, CashOf(u), CashOf(u));
    assert PortfoliosOf(db'.portfolios, u) == PortfoliosOf(db.portfolios, u) by {
      forall p | p in db.portfolios ensures db'.portfolios[p].userId == db.portfolios[p].userId {
        assert SameMoney(db.portfolios[p], db'.portfolios[p]);
      }
    }
    var term := SharesOf(PortfoliosOf(db.portfolios, u), symbol);
    forall h | h in db'.positions ensures term(h, db'.positions[h]) == term(h, PositionAt(db, h)) {
      assert SameHolding(PositionAt(db, h), db'.positions[h]);
    }
    SumAgree(db.positions, db'.positions, term, term);
  }

  lemma FillMovesCash(portfolios: map<Id, Portfolio>, o: Order, dto: FillOrderDto, u: Id, cost: real)
    requires OwnerOk(o, portfolios) && cost == Cost(dto)
    ensures Sum(portfolios[o.portfolioId := PortfolioFilled(portfolios[o.portfolioId], o, dto)], CashOf(u))
         == Sum(portfolios, CashOf(u)) - (if o.userId == u then Signed(o.side, cost) else 0.0)
  {
    hide CashUsed, MarginShare;
    SumWrite(portfolios, o.portfolioId, PortfolioFilled(portfolios[o.portfolioId], o, dto), CashOf(u));
  }

  lemma FillMovesShares(positions: map<Holding, Position>, o: Order, dto: FillOrderDto, owned: set<Id>, symbol: Symbol,
                        held: Position)
    requires held == if HoldingOf(o) in positions then positions[HoldingOf(o)] else NoPosition
    ensures Sum(positions[HoldingOf(o) := PositionFilled(held, o, dto)], SharesOf(owned, symbol))
         == Sum(positions, SharesOf(owned, symbol))
              + (if o.portfolioId in owned && o.symbol == symbol then Signed(o.side, dto.quantity) else 0.0)
  {
    hide Entered, Realized;
    SumWrite(positions, HoldingOf(o), PositionFilled(held, o, dto), SharesOf(owned, symbol));
  }

  lemma FillKeepsCashDrift(db: Db, o: Order, dto: FillOrderDto, u: Id)
    requires OwnerOk(o, db.portfolios)
    ensures CashDrift(Filled(db, o, dto), u) == CashDrift(db, u)
  {
    hide PortfolioFilled, PositionFilled, Realized;
    var cost := Cost(dto);
    FillEntriesMove(db.ledger, o, dto.quantity, cost, UserCash(u), Fiat);
    FillMovesCash(db.portfolios, o, dto, u, cost);
  }

  lemma FillKeepsSharesDrift(db: Db, o: Order, dto: FillOrderDto, u: Id, symbol: Symbol)
    requires OwnerOk(o, db.portfolios)
    ensures SharesDrift(Filled(db, o, dto), u, symbol) == SharesDrift(db, u, symbol)
  {
    hide PositionFilled, Realized, MarginShare, CashUsed;
    var db' := Filled(db, o, dto);
    FillEntriesMove(db.ledger, o, dto.quantity, Cost(dto), UserSecurity(u, symbol), Security(symbol));
    assert PortfoliosOf(db'.portfolios, u) == PortfoliosOf(db.portfolios, u);
    FillMovesShares(db.positions, o, dto, PortfoliosOf(db.portfolios, u), symbol, PositionAt(db, HoldingOf(o)));
  }

  lemma ActKeepsLedger(db: Db, a: Action, u: Id, symbol: Symbol, asset: Asset)
    requires Shape(db)
    ensures CashDrift(Act(db, a), u) == CashDrift(db, u)
    ensures SharesDrift(Act(db, a), u, symbol) == SharesDrift(db, u, symbol)
    ensures Net(Act(db, a).ledger, asset) == Net(db.ledger, asset)
  {
    hide CashDrift, SharesDrift, Filled;
    if a.Fill? {
      FillAllOrNothing(db, a.fill);
      if Act(db, a) != db {
        var o := db.orders[a.fill.orderId];
        OrderShape(db, a.fill.orderId);
        FillKeepsCashDrift(db, o, a.fill, u);
        FillKeepsSharesDrift(db, o, a.fill, u, symbol);
        FillKeepsNet(db, o, a.fill, asset);
      }
    } else {
      ActIsQuiet(db, a);
      QuietKeepsDrift(db, Act(db, a), u, symbol);
    }
  }

  lemma FillKeepsNet(db: Db, o: Order, dto: FillOrderDto, asset: Asset)
    requires o.portfolioId in db.portfolios
    ensures Net(Filled(db, o, dto).ledger, asset) == Net(db.ledger, asset)
  {
    hide Cost, PositionFilled, PortfolioFilled;
    FillEntriesMove(db.ledger, o, dto.quantity, Cost(dto), PlatformCash, asset);
  }

  /** Over every run the ledger follows the balances: a user's cash account moves with the cash of all the
      user's portfolios, each security account with the shares held, and every asset keeps balancing. */
  lemma {:induction false} LedgerFollowsBalances(db: Db, actions: seq<Action>, u: Id, symbol: Symbol, asset: Asset)
    requires Shape(db)
    ensures Shape(Run(db, actions))
    ensures CashDrift(Run(db, actions), u) == CashDrift(db, u)
    ensures SharesDrift(Run(db, actions), u, symbol) == SharesDrift(db, u, symbol)
    ensures Net(Run(db, actions).ledger, asset) == Net(db.ledger, asset)
  {
    hide CashDrift, SharesDrift, Act, Shape;
    if actions != [] {
      var before := actions[..|actions| - 1];
      LedgerFollowsBalances(db, before, u, symbol, asset);
      ActKeepsShape(Run(db, before), actions[|actions| - 1]);
      ActKeepsLedger(Run(db, before), actions[|actions| - 1], u, symbol, asset);
    }
  }

  // ---- what reconciliation reports -----------------------------------------------------------

  /** reconcilePortfolioCash compares the user's whole cash account with this one portfolio. */
  ghost predicate CashReconciles(db: Db, pid: Id)
    requires pid in db.portfolios
  {
    Balance(db.ledger, UserCash(db.portfolios[pid].userId), Fiat) == db.portfolios[pid].totalCash
  }

  ghost predicate SharesReconcile(db: Db, h: Holding)
    requires h.portfolioId in db.portfolios && h in db.positions
  {
    Balance(db.ledger, UserSecurity(db.portfolios[h.portfolioId].userId, h.symbol), Security(h.symbol))
      == db.positions[h].quantity
  }

  /** Cash of the user's other portfolios. */
  ghost function OtherCash(portfolios: map<Id, Portfolio>, pid: Id): real
    requires pid in portfolios
  {
    Sum(portfolios - {pid}, CashOf(portfolios[pid].userId))
  }

  ghost function OtherShares(db: Db, h: Holding): real
    requires h.portfolioId in db.portfolios
  {
    Sum(db.positions - {h}, SharesOf(PortfoliosOf(db.portfolios, db.portfolios[h.portfolioId].userId), h.symbol))
  }

  lemma DriftOfOne(db: Db, pid: Id)
    requires pid in db.portfolios
    ensures CashReconciles(db, pid) <==> CashDrift(db, db.portfolios[pid].userId) + OtherCash(db.portfolios, pid) == 0.0
  {
    SumTakeOut(db.portfolios, pid, CashOf(db.portfolios[pid].userId));
  }

  lemma SharesDriftOfOne(db: Db, h: Holding)
    requires h.portfolioId in db.portfolios && h in db.positions
    ensures SharesReconcile(db, h) <==>
        SharesDrift(db, db.portfolios[h.portfolioId].userId, h.symbol) + OtherShares(db, h) == 0.0
  {
    SumTakeOut(db.positions, h, SharesOf(PortfoliosOf(db.portfolios, db.portfolios[h.portfolioId].userId), h.symbol));
  }

  lemma ActKeepsOwners(db: Db, a: Action)
    requires Shape(db)
    ensures SameOwners(db.portfolios, Act(db, a).portfolios)
  {
    if a.Fill? {
      FillAllOrNothing(db, a.fill);
    } else {
      ActIsQuiet(db, a);
      forall p | p in db.portfolios
        ensures SameMoney(db.portfolios[p], Act(db, a).portfolios[p])
      {}
    }
  }

  lemma {:induction false} RunKeepsOwners(db: Db, actions: seq<Action>)
    requires Shape(db)
    ensures Shape(Run(db, actions)) && SameOwners(db.portfolios, Run(db, actions).portfolios)
  {
    hide Act, Shape;
    if actions != [] {
      RunKeepsOwners(db, actions[..|actions| - 1]);
      ActKeepsShape(Run(db, actions[..|actions| - 1]), actions[|actions| - 1]);
      ActKeepsOwners(Run(db, actions[..|actions| - 1]), actions[|actions| - 1]);
    }
  }

  /** Reconciliation of a portfolio's cash after any run reports balance exactly when the user's other
      portfolios hold what the ledger was off by at the start. It is not a property every run has: nothing
      records the cash a portfolio starts with. */
  lemma CashReconcilesExactly(db: Db, actions: seq<Action>, pid: Id)
    requires Shape(db) && pid in db.portfolios
    ensures pid in Run(db, actions).portfolios
    ensures CashReconciles(Run(db, actions), pid)
       <==> CashDrift(db, db.portfolios[pid].userId) + OtherCash(Run(db, actions).portfolios, pid) == 0.0
  {
    hide CashDrift, CashReconciles, OtherCash, Run;
    RunKeepsOwners(db, actions);
    LedgerFollowsBalances(db, actions, db.portfolios[pid].userId, Symbol(""), Fiat);
    DriftOfOne(Run(db, actions), pid);
  }

  lemma SharesReconcileExactly(db: Db, actions: seq<Action>, h: Holding)
    requires Shape(db) && h.portfolioId in db.portfolios && h in Run(db, actions).positions
    ensures h.portfolioId in Run(db, actions).portfolios
    ensures SharesReconcile(Run(db, actions), h)
       <==> SharesDrift(db, db.portfolios[h.portfolioId].userId, h.symbol) + OtherShares(Run(db, actions), h) == 0.0
  {
    hide SharesDrift, SharesReconcile, OtherShares, Run;
    RunKeepsOwners(db, actions);
    LedgerFollowsBalances(db, actions, db.portfolios[h.portfolioId].userId, h.symbol, Fiat);
    SharesDriftOfOne(Run(db, actions), h);
  }

  lemma SumOfOthers(portfolios: map<Id, Portfolio>, u: Id)
    requires forall p | p in portfolios :: portfolios[p].userId != u
    ensures Sum(portfolios, CashOf(u)) == 0.0
  {
    forall p | p in portfolios ensures CashOf(u)(p, portfolios[p]) == 0.0 {}
    SumOfZeros(portfolios, CashOf(u));
  }

  /** So for a user with one portfolio, opened with an empty ledger, cash reconciles after any run exactly
      when the portfolio was opened with none. */
  lemma CashReconcilesFromEmpty(db: Db, actions: seq<Action>, pid: Id)
    requires Shape(db) && pid in db.portfolios && db.ledger == []
    requires forall p | p in db.portfolios && p != pid :: db.portfolios[p].userId != db.portfolios[pid].userId
    ensures pid in Run(db, actions).portfolios
    ensures CashReconciles(Run(db, actions), pid) <==> db.portfolios[pid].totalCash == 0.0
  {
    hide Run, Shape;
    var u := db.portfolios[pid].userId;
    CashReconcilesExactly(db, actions, pid);
    RunKeepsOwners(db, actions);
    SumOfOthers(Run(db, actions).portfolios - {pid}, u);
    SumOfOthers(db.portfolios - {pid}, u);
    SumTakeOut(db.portfolios, pid, CashOf(u));
  }
}
