/** Creating orders, moving them through their life cycle, and the audit and
    outbox rows that go with it. */
module OrderService {
  import opened Domain
  import opened Tables

  function Log(s: Store, event: AuditEvent, id: nat,
               previous: Option<OrderStatus>, next: Option<OrderStatus>): Store
  {
    s.(audit := s.audit + [AuditRow(event, id, previous, next)])
  }

  /** An audit row for something that is not a status change. */
  function Record(s: Store, event: AuditEvent, id: nat): Store {
    Log(s, event, id, None, None)
  }

  function Enqueue(s: Store, event: OutboxEvent): Store {
    s.(outbox := s.outbox + [event])
  }

  function SetOrder(s: Store, id: nat, o: Order): Store
    requires id < |s.orders|
  {
    s.(orders := s.orders[id := o])
  }

  /** The one way a status changes: checked against the table, then audited. */
  function Transition(s: Store, id: nat, target: OrderStatus, event: AuditEvent): (r: Result<Store>)
    requires id < |s.orders|
    ensures r.Ok? ==> |r.value.orders| == |s.orders|
  {
    var o := s.orders[id];
    if target in Transitions(o.status) then
      Ok(Log(SetOrder(s, id, o.(status := target)), event, id, Some(o.status), Some(target)))
    else
      Raised(InvalidOrderTransition)
  }

  /** The fields hashed into an idempotency key; the hash is taken as injective. */
  predicate SameKey(o: Order, intent: Intent) {
    && o.accountId == intent.accountId
    && o.strategy == intent.strategy
    && o.signal == intent.signal
    && o.symbol == intent.symbol
    && o.side == intent.side
    && o.quantity == intent.quantity
    && o.limitPrice == intent.limitPrice
  }

  /** Index of the first order with this key, or the table's length. */
  function KeyIndex(orders: seq<Order>, intent: Intent): (i: nat)
    ensures i <= |orders|
    ensures i < |orders| ==> SameKey(orders[i], intent)
    ensures forall k :: 0 <= k < i ==> !SameKey(orders[k], intent)
  {
    if orders == [] then 0
    else if SameKey(orders[0], intent) then 0
    else 1 + KeyIndex(orders[1..], intent)
  }

  function NewOrder(intent: Intent, now: int): Order {
    Order(intent.accountId, intent.symbol, intent.side, intent.orderType, Created,
          intent.quantity, 0.0, intent.limitPrice, None, None,
          intent.signal, intent.strategy, now)
  }

  /** Reuse the order with the same key, or add a new one; returns its id. */
  function CreateOrder(s: Store, intent: Intent, now: int): (r: (Store, nat))
    ensures r.1 < |r.0.orders|
    ensures SameKey(r.0.orders[r.1], intent)
  {
    var i := KeyIndex(s.orders, intent);
    if i < |s.orders| then
      var status := Some(s.orders[i].status);
      (Log(s, IdempotencyHit, i, status, status), i)
    else
      (Log(s.(orders := s.orders + [NewOrder(intent, now)]), OrderCreated, i, None, Some(Created)), i)
  }
}
