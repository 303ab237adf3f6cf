/** Every action the services can take on the database, and runs of them. */
module Actions {
  import opened Liquidity
  import opened Domain
  import opened OrderSpec
  import opened LiquidationSpec

  datatype Action =
    | PlaceOrder(dto: PlaceOrderDto, newId: Id, open: bool)
    | MarkOrderPending(id: Id, openBefore: bool, openInside: bool)
    | ActivateStopLimit(id: Id)
    | Fill(fill: FillOrderDto)
    | CancelOrder(id: Id)
    | ExpireOrder(id: Id)
    | EvaluatePortfolio(portfolioId: Id, prices: map<Symbol, real>, ranking: map<Symbol, real>, open: bool, newId: Id)

  /** Fresh row ids are uuids: an action that would reuse one does not happen. */
  predicate FreshId(db: Db, a: Action) {
    (a.PlaceOrder? || a.EvaluatePortfolio?) ==> a.newId !in db.orders
  }

  ghost function Act(db: Db, a: Action): Db {
    if !FreshId(db, a) then db
    else match a
      case PlaceOrder(dto, id, open) => Place(db, dto, id, open).0
      case MarkOrderPending(id, before, inside) => MarkPending(db, id, before, inside).0
      case ActivateStopLimit(id) => Activate(db, id).0
      case Fill(fill) => ProcessFill(db, fill).0
      case CancelOrder(id) => Cancel(db, id).0
      case ExpireOrder(id) => Expire(db, id).0
      case EvaluatePortfolio(pid, prices, ranking, open, id) => Evaluate(db, pid, prices, ranking, open, id).0
  }

  ghost function Run(db: Db, actions: seq<Action>): Db {
    if actions == [] then db
    else Act(Run(db, actions[..|actions| - 1]), actions[|actions| - 1])
  }

  /** A database before any order: portfolios and holdings of any size, nothing locked. */
  ghost predicate Initial(db: Db) {
    && db.orders == map[] && db.byKey == map[] && db.fills == map[]
    && (forall p | p in db.portfolios :: db.portfolios[p].lockedCash == 0.0 && db.portfolios[p].lockedMargin == 0.0)
    && (forall h | h in db.positions ::
          && db.positions[h].locked == 0.0
          && h.portfolioId in db.portfolios
          && (db.positions[h].status == CLOSED ==> db.positions[h].quantity == 0.0)
          && (!db.portfolios[h.portfolioId].isMarginEnabled ==> db.positions[h].quantity >= 0.0))
  }
}
