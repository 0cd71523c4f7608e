/** The paper broker: reserve, match, settle, cancel. */
module LocalSim {
  import opened Domain
  import opened Sums
  import opened Tables
  import opened Pricing
  import opened OrderService

  datatype BrokerResult = BrokerResult(accepted: bool, brokerOrderId: Option<BrokerId>)

  datatype Reservation = Reserved(store: Store) | Refused

  // ---- totals over the positions of one account -----------------------------

  function MarketValues(a: AccountId): Position -> real {
    (p: Position) => if p.accountId == a then p.marketValue else 0.0
  }

  function UnrealizedPnls(a: AccountId): Position -> real {
    (p: Position) => if p.accountId == a then p.unrealizedPnl else 0.0
  }

  // ---- reserving and releasing ----------------------------------------------

  function Reserve(cfg: SimConfig, s: Store, id: nat, quote: Quote): Reservation
    requires id < |s.orders|
  {
    var o := s.orders[id];
    if o.accountId !in s.accounts then Refused
    else if o.side == Buy then
      var account := s.accounts[o.accountId];
      var cash := CostAt(cfg, o.quantity, Or(o.limitPrice, Ask(quote)));
      if account.cashAvailable < cash then Refused
      else
        var account' := account.(cashAvailable := account.cashAvailable - cash,
                                 cashFrozen := account.cashFrozen + cash);
        Reserved(Record(s.(accounts := s.accounts[o.accountId := account']), SimResourcesReserved, id))
    else if IsBracket(o) then
      Reserved(Record(s, SimResourcesReserved, id))
    else
      var held := Held(s.positions, o.accountId, o.symbol);
      if !HasPosition(s.positions, o.accountId, o.symbol) || held.availableQuantity < o.quantity then Refused
      else
        var held' := held.(availableQuantity := held.availableQuantity - o.quantity);
        Reserved(Record(s.(positions := Put(s.positions, held')), SimResourcesReserved, id))
  }

  function Release(cfg: SimConfig, s: Store, id: nat): Result<Store>
    requires id < |s.orders|
  {
    var o := s.orders[id];
    if o.accountId !in s.accounts then Raised(UnknownAccount)
    else if o.side == Buy then
      var account := s.accounts[o.accountId];
      var cash :- ReservedCash(cfg, o, None, None);
      var account' := account.(cashAvailable := account.cashAvailable + cash,
                               cashFrozen := account.cashFrozen - cash);
      Ok(Record(s.(accounts := s.accounts[o.accountId := account']), SimResourcesReleased, id))
    else if IsBracket(o) then
      Ok(Record(s, SimResourcesReleased, id))
    else if !HasPosition(s.positions, o.accountId, o.symbol) then Raised(MissingPosition)
    else
      var held := Held(s.positions, o.accountId, o.symbol);
      var held' := held.(availableQuantity := held.availableQuantity + (o.quantity - o.filledQuantity));
      Ok(Record(s.(positions := Put(s.positions, held')), SimResourcesReleased, id))
  }

  // ---- settling a fill --------------------------------------------------------

  /** Revalue a position at the price it last traded. */
  function MarkTo(p: Position, price: real): Position {
    p.(marketPrice := price,
       marketValue := Amount(p.quantity, price),
       unrealizedPnl := Amount(p.quantity, price) - Amount(p.quantity, p.avgCost))
  }

  function BoughtInto(p: Position, quantity: real, cost: real): Position {
    p.(avgCost := WeightedAvgCost(p.quantity, p.avgCost, quantity, cost),
       quantity := p.quantity + quantity,
       availableQuantity := p.availableQuantity + quantity)
  }

  /** A sale that empties the position, or oversells it, leaves zero shares at
      zero cost. */
  function SoldFrom(p: Position, quantity: real): Position {
    if p.quantity - quantity <= 0.0 then p.(quantity := 0.0, avgCost := 0.0)
    else p.(quantity := p.quantity - quantity)
  }

  /** What is left of `held` after selling `quantity`, short sales not being booked. */
  function Sold(held: real, quantity: real): real {
    if held >= quantity then held - quantity else 0.0
  }

  function PositionAfter(cfg: SimConfig, p: Position, o: Order, price: real): Position {
    MarkTo(if o.side == Buy then BoughtInto(p, o.quantity, CostAt(cfg, o.quantity, price))
           else SoldFrom(p, o.quantity),
           price)
  }

  function CashAfter(cfg: SimConfig, account: Account, p: Position, o: Order, price: real): Account {
    if o.side == Buy then
      var frozen := CostAt(cfg, o.quantity, Or(o.limitPrice, price));
      account.(cashFrozen := account.cashFrozen - frozen,
               cashAvailable := account.cashAvailable + (frozen - CostAt(cfg, o.quantity, price)))
    else
      account.(cashAvailable := account.cashAvailable + ProceedsAt(cfg, o.quantity, price),
               realizedPnl := account.realizedPnl
                 + (Amount(o.quantity, price - p.avgCost) - Commission(cfg, Amount(o.quantity, price))))
  }

  function Revalued(account: Account, a: AccountId, positions: seq<Position>): Account {
    account.(unrealizedPnl := Sum(UnrealizedPnls(a), positions),
             equity := account.cashAvailable + account.cashFrozen + Sum(MarketValues(a), positions))
  }

  function CashAmount(cfg: SimConfig, o: Order, price: real): real {
    if o.side == Buy then -CostAt(cfg, o.quantity, price) else ProceedsAt(cfg, o.quantity, price)
  }

  /** Cash, position, fill and ledger rows of a fill, before the status moves. */
  function Settle(cfg: SimConfig, s: Store, id: nat, price: real): Store
    requires id < |s.orders| && s.orders[id].accountId in s.accounts
  {
    var o := s.orders[id];
    var a := o.accountId;
    var held := Held(s.positions, a, o.symbol);
    var positions := Put(s.positions, PositionAfter(cfg, held, o, price));
    var account := Revalued(CashAfter(cfg, s.accounts[a], held, o, price), a, positions);
    s.(accounts := s.accounts[a := account],
       positions := positions,
       orders := s.orders[id := o.(filledQuantity := o.quantity, avgFillPrice := Some(price))],
       fills := s.fills + [Fill(id, o.quantity, price, Commission(cfg, Amount(o.quantity, price)))],
       cashLedger := s.cashLedger
         + [LedgerRow(a, id, CashAmount(cfg, o, price), account.cashAvailable)])
  }

  function ApplyFill(cfg: SimConfig, s: Store, id: nat, price: real): (r: Result<Store>)
    requires id < |s.orders|
    ensures r.Ok? ==> |r.value.orders| == |s.orders|
  {
    var o := s.orders[id];
    if o.accountId !in s.accounts then Raised(UnknownAccount)
    else
      var filled :- Transition(Settle(cfg, s, id, price), id, Filled, SimFilled);
      Ok(Enqueue(Enqueue(Record(filled, SimLedgerUpdated, id), OrderFilled(id)),
                 PositionUpdated(o.accountId, o.symbol)))
  }

  // ---- the broker's operations ------------------------------------------------

  function Refuse(s: Store, id: nat, event: AuditEvent): Result<(Store, BrokerResult)>
    requires id < |s.orders|
  {
    var failed :- Transition(s, id, Failed, event);
    Ok((failed, BrokerResult(false, None)))
  }

  /** Confirm a reserved order: submitting, broker id, submitted. */
  function Accept(s: Store, id: nat): Result<Store>
    requires id < |s.orders|
  {
    var submitting :- Transition(s, id, Submitting, SimSubmitting);
    var o := submitting.orders[id].(brokerOrderId := Some(LocalSimId(id)));
    Transition(SetOrder(submitting, id, o), id, Submitted, SimSubmitted)
  }

  /** Fill the order if the quote allows it. */
  function Match(cfg: SimConfig, s: Store, id: nat, quote: Quote): (r: Result<Store>)
    requires id < |s.orders|
    ensures r.Ok? ==> |r.value.orders| == |s.orders|
  {
    match FillPrice(s.orders[id], quote)
    case None => Ok(s)
    case Some(price) => ApplyFill(cfg, s, id, price)
  }

  function Submit(cfg: SimConfig, s: Store, id: nat, quote: Quote): Result<(Store, BrokerResult)>
    requires id < |s.orders|
  {
    var o := s.orders[id];
    if o.status != RiskApproved then Ok((s, BrokerResult(false, None)))
    else if quote.symbol != o.symbol then Refuse(s, id, SimSymbolMismatch)
    else
      match Reserve(cfg, s, id, quote)
      case Refused => Refuse(s, id, SimReservationFailed)
      case Reserved(held) =>
        var accepted :- Accept(held, id);
        var matched :- Match(cfg, accepted, id, quote);
        Ok((matched, BrokerResult(true, Some(LocalSimId(id)))))
  }

  function Cancel(cfg: SimConfig, s: Store, id: nat): Result<(Store, BrokerResult)>
    requires id < |s.orders|
  {
    var o := s.orders[id];
    if o.status != Submitted then Ok((s, BrokerResult(false, o.brokerOrderId)))
    else
      var pending :- Transition(s, id, CancelPending, SimCancelPending);
      var released :- Release(cfg, pending, id);
      var cancelled :- Transition(released, id, Cancelled, SimCancelled);
      Ok((Enqueue(cancelled, OrderCancelled(id)), BrokerResult(true, o.brokerOrderId)))
  }

  /** The rows an unordered query for resting orders of the symbol returns. */
  predicate RestingRows(orders: seq<Order>, y: Symbol, rows: seq<nat>) {
    && (forall i, j :: 0 <= i < j < |rows| ==> rows[i] != rows[j])
    && (forall i :: 0 <= i < |rows| ==>
          rows[i] < |orders| && orders[rows[i]].symbol == y && orders[rows[i]].status == Submitted)
    && (forall k :: 0 <= k < |orders| && orders[k].symbol == y && orders[k].status == Submitted ==> k in rows)
  }

  /** Match the given rows one after the other. */
  function MatchRows(cfg: SimConfig, s: Store, quote: Quote, rows: seq<nat>): (r: Result<Store>)
    requires forall i :: 0 <= i < |rows| ==> rows[i] < |s.orders|
    ensures r.Ok? ==> |r.value.orders| == |s.orders|
  {
    if rows == [] then Ok(s)
    else
      var last := |rows| - 1;
      var before :- MatchRows(cfg, s, quote, rows[..last]);
      Match(cfg, before, rows[last], quote)
  }

  lemma MatchChangesRow(cfg: SimConfig, s: Store, id: nat, quote: Quote)
    requires id < |s.orders| && Match(cfg, s, id, quote).Ok?
    ensures
      var now := Match(cfg, s, id, quote).value.orders;
      |now| == |s.orders| && now == s.orders[id := now[id]]
  {
  }

  /** The rows that trade at this quote, in order. */
  function Fillable(orders: seq<Order>, quote: Quote, rows: seq<nat>): seq<nat>
    requires forall i :: 0 <= i < |rows| ==> rows[i] < |orders|
  {
    if rows == [] then []
    else
      var last := |rows| - 1;
      var earlier := Fillable(orders, quote, rows[..last]);
      if FillPrice(orders[rows[last]], quote).Some? then earlier + [rows[last]] else earlier
  }
}
