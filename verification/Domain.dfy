/** The rows of the trading database, the status machine of an order, and the failures a service
    call can report. Quantities and money are exact reals. */
module Domain {
  import opened Prelude
  import opened Liquidity

  /** Row identities (uuids): only whether two are the same matters. */
  type Id = int

  lemma SomeMember(ids: set<Id>)
    requires ids != {}
    ensures exists id :: id in ids
  {
    var id := Member(ids);
  }

  datatype OrderType = MARKET | LIMIT | STOP | STOP_LIMIT

  datatype OrderStatus =
    | RECEIVED | VALIDATED | ACCEPTED | PENDING | PARTIALLY_FILLED
    | FILLED | CANCELLED | REJECTED | EXPIRED

  /** Idempotency keys are strings; the ones the liquidation worker builds are told apart by their
      parts. A client may send any key, also one of that form. */
  datatype IdempotencyKey =
    | Client(text: string)
    | Round(portfolioId: Id, symbol: Symbol, round: nat)

  datatype Order = Order(
    id: Id, userId: Id, portfolioId: Id, symbol: Symbol, side: Side, kind: OrderType,
    requested: real, filled: real,
    limitPrice: Option<real>, stopPrice: Option<real>, reservationPrice: Option<real>, reservedMargin: Option<real>,
    status: OrderStatus, key: IdempotencyKey, isLiquidation: bool, isActivated: bool)

  datatype Portfolio = Portfolio(
    userId: Id, totalCash: real, lockedCash: real, lockedMargin: real, isMarginEnabled: bool)

  datatype PositionStatus = OPEN | CLOSED

  datatype Position = Position(
    quantity: real, locked: real, average: real, realizedPnl: real, status: PositionStatus)

  /** Unique key of the positions table. */
  datatype Holding = Holding(portfolioId: Id, symbol: Symbol)

  /** Unique key of the order_fills table: the order and its execution key. The engine names an
      execution by the cumulative quantity it would reach. */
  datatype FillKey = FillKey(orderId: Id, execution: real)

  datatype Fill = Fill(price: real, quantity: real, realizedPnl: real)

  datatype Account =
    | UserCash(userId: Id)
    | UserSecurity(userId: Id, symbol: Symbol)
    | PlatformCash
    | PlatformSecurity(symbol: Symbol)

  datatype Asset = Fiat | Security(symbol: Symbol)

  datatype Entry = Entry(account: Account, asset: Asset, debit: real, credit: real)

  /** The tables, each a map from its unique key; byKey is the unique index on
      (userId, idempotencyKey). The ledger only grows. */
  datatype Db = Db(
    portfolios: map<Id, Portfolio>,
    positions: map<Holding, Position>,
    orders: map<Id, Order>,
    byKey: map<(Id, IdempotencyKey), Id>,
    fills: map<FillKey, Fill>,
    ledger: seq<Entry>)

  datatype Failure =
    | QuantityNotPositive | MissingPrice | MarketClosed | NotFound | Unauthorized
    | InsufficientFunds | InsufficientMargin | InsufficientQuantity | ValuationFailed
    | InvalidTransition | NotPending | ExceedsRequested | InsufficientLocked
    | NegativeEntry | LedgerImbalance | DuplicateKey | SymbolMismatch

  type Reply = Result<Order, Failure>

  function IsValidTransition(from: OrderStatus, to: OrderStatus): bool {
    match from
    case RECEIVED => to in {VALIDATED, REJECTED}
    case VALIDATED => to in {ACCEPTED, REJECTED}
    case ACCEPTED => to in {PENDING, CANCELLED, REJECTED, EXPIRED}
    case PENDING => to in {PARTIALLY_FILLED, FILLED, CANCELLED, EXPIRED, REJECTED}
    case PARTIALLY_FILLED => to in {PARTIALLY_FILLED, FILLED, CANCELLED, EXPIRED}
    case _ => false
  }

  /** The statuses in which an order holds a reservation. */
  predicate Active(s: OrderStatus) {
    s.ACCEPTED? || s.PENDING? || s.PARTIALLY_FILLED?
  }

  predicate Fillable(s: OrderStatus) {
    s.PENDING? || s.PARTIALLY_FILLED?
  }

  predicate HasLimit(kind: OrderType) {
    kind.LIMIT? || kind.STOP_LIMIT?
  }

  /** A position counts when it is open and not flat. */
  predicate Counts(pos: Position) {
    pos.status.OPEN? && pos.quantity != 0.0
  }

  const NoPosition: Position := Position(0.0, 0.0, 0.0, 0.0, OPEN)

  function PositionAt(db: Db, h: Holding): Position {
    if h in db.positions then db.positions[h] else NoPosition
  }

  function HoldingOf(o: Order): Holding {
    Holding(o.portfolioId, o.symbol)
  }

  /** Signed quantity of a fill, seen from the position. */
  function Signed(side: Side, quantity: real): real {
    if side.BUY? then quantity else -quantity
  }
}
