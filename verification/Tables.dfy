/** The tables of the trading database, as one value. */
module Tables {
  import opened Domain

  datatype Account = Account(
    cashAvailable: real,
    cashFrozen: real,
    equity: real,
    realizedPnl: real,
    unrealizedPnl: real)

  datatype Position = Position(
    accountId: AccountId,
    symbol: Symbol,
    quantity: real,
    availableQuantity: real,
    avgCost: real,
    marketPrice: real,
    marketValue: real,
    unrealizedPnl: real)

  datatype Order = Order(
    accountId: AccountId,
    symbol: Symbol,
    side: Side,
    orderType: OrderType,
    status: OrderStatus,
    quantity: real,
    filledQuantity: real,
    limitPrice: Option<real>,
    avgFillPrice: Option<real>,
    brokerOrderId: Option<BrokerId>,
    signal: Option<nat>,
    strategy: Option<nat>,
    createdAt: int)

  datatype Intent = Intent(
    accountId: AccountId,
    symbol: Symbol,
    side: Side,
    orderType: OrderType,
    quantity: real,
    limitPrice: Option<real>,
    signal: Option<nat>,
    strategy: Option<nat>)

  /** The checks that constructing an order intent performs. */
  predicate ValidIntent(intent: Intent) {
    && intent.quantity > 0.0
    && (intent.limitPrice.Some? ==> intent.limitPrice.value > 0.0)
    && (intent.orderType != Market ==> intent.limitPrice.Some?)
  }

  datatype Quote = Quote(symbol: Symbol, last: real, bid: Option<real>, ask: Option<real>)

  predicate ValidQuote(quote: Quote) {
    && quote.last > 0.0
    && (quote.bid.Some? ==> quote.bid.value > 0.0)
    && (quote.ask.Some? ==> quote.ask.value > 0.0)
  }

  datatype Fill = Fill(orderId: nat, quantity: real, price: real, commission: real)

  datatype LedgerRow = LedgerRow(accountId: AccountId, orderId: nat, amount: real, balanceAfter: real)

  datatype Signal = Signal(trace: nat, strategy: nat, symbol: Symbol)

  datatype AuditEvent =
    | OrderCreated
    | IdempotencyHit
    | RiskCheckCompleted
    | BracketAutoApproved
    | SimSymbolMismatch
    | SimReservationFailed
    | SimSubmitting
    | SimSubmitted
    | SimFilled
    | SimCancelPending
    | SimCancelled
    | SimResourcesReserved
    | SimResourcesReleased
    | SimLedgerUpdated
    | LbSubmissionBlocked
    | LbSubmitting
    | LbSubmitUnknown
    | LbSubmitFailed
    | LbSubmitted
    | LbCancelPending
    | LbCancelUnresolved
    | LbPush
    | TradeApproved

  /** An audit row; the order is the one its snapshots name. */
  datatype AuditRow = AuditRow(
    event: AuditEvent,
    orderId: nat,
    previous: Option<OrderStatus>,
    next: Option<OrderStatus>)

  datatype OutboxEvent =
    | OrderReadyToSubmit(orderId: nat)
    | OrderFilled(orderId: nat)
    | OrderCancelled(orderId: nat)
    | PositionUpdated(accountId: AccountId, symbol: Symbol)

  datatype Store = Store(
    accounts: map<AccountId, Account>,
    positions: seq<Position>,
    orders: seq<Order>,
    fills: seq<Fill>,
    cashLedger: seq<LedgerRow>,
    audit: seq<AuditRow>,
    outbox: seq<OutboxEvent>,
    signals: seq<Signal>)

  // ---- the positions table -------------------------------------------------

  function NoPosition(a: AccountId, y: Symbol): Position {
    Position(a, y, 0.0, 0.0, 0.0, 0.0, 0.0, 0.0)
  }

  /** Index of the first row for this account and symbol, or the table's length. */
  function PositionIndex(rows: seq<Position>, a: AccountId, y: Symbol): (i: nat)
    ensures i <= |rows|
    ensures i < |rows| ==> rows[i].accountId == a && rows[i].symbol == y
    ensures forall k :: 0 <= k < i ==> !(rows[k].accountId == a && rows[k].symbol == y)
  {
    if rows == [] then 0
    else if rows[0].accountId == a && rows[0].symbol == y then 0
    else 1 + PositionIndex(rows[1..], a, y)
  }

  predicate HasPosition(rows: seq<Position>, a: AccountId, y: Symbol) {
    PositionIndex(rows, a, y) < |rows|
  }

  /** The position held, or the zero row that a first fill creates. */
  function Held(rows: seq<Position>, a: AccountId, y: Symbol): (p: Position)
    ensures p.accountId == a && p.symbol == y
  {
    var i := PositionIndex(rows, a, y);
    if i < |rows| then rows[i] else NoPosition(a, y)
  }

  function Put(rows: seq<Position>, p: Position): seq<Position> {
    var i := PositionIndex(rows, p.accountId, p.symbol);
    if i < |rows| then rows[i := p] else rows + [p]
  }

  lemma PutHeld(rows: seq<Position>, p: Position, a: AccountId, y: Symbol)
    ensures Held(Put(rows, p), a, y)
         == if a == p.accountId && y == p.symbol then p else Held(rows, a, y)
  {
    var i := PositionIndex(rows, p.accountId, p.symbol);
    var j, j' := PositionIndex(rows, a, y), PositionIndex(Put(rows, p), a, y);
    if a == p.accountId && y == p.symbol {
      assert Put(rows, p)[i] == p;
      assert j' == i;
    } else if j < |rows| {
      assert Put(rows, p)[j] == rows[j];
      assert j' == j;
    } else {
      assert j' == |Put(rows, p)|;
    }
  }

  lemma PutKeepsPositions(rows: seq<Position>, p: Position, a: AccountId, y: Symbol)
    requires HasPosition(rows, a, y)
    ensures HasPosition(Put(rows, p), a, y)
  {
    var j := PositionIndex(rows, a, y);
    assert Put(rows, p)[j].accountId == a && Put(rows, p)[j].symbol == y;
  }
}
