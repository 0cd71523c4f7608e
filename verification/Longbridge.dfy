/** The external broker: submission and cancellation through a gateway whose
    replies are inputs, and order pushes that may arrive in any order. */
module Longbridge {
  import opened Domain
  import opened Tables
  import opened OrderService
  import opened LocalSim

  datatype Mode = Paper | Live | UnsupportedMode

  datatype LbConfig = LbConfig(mode: Mode, enableSubmission: bool, enableLive: bool)

  /** What a call to the gateway ends in. */
  datatype Reply = Answered(id: string) | Unreachable | GatewayError

  predicate SubmissionAllowed(cfg: LbConfig) {
    && cfg.mode != UnsupportedMode
    && cfg.enableSubmission
    && (cfg.mode == Live ==> cfg.enableLive)
  }

  predicate BrokerIdTaken(orders: seq<Order>, id: BrokerId) {
    exists k :: 0 <= k < |orders| && orders[k].brokerOrderId == Some(id)
  }

  /** Index of the order with this broker id, or the table's length. */
  function BrokerIdIndex(orders: seq<Order>, id: BrokerId): (i: nat)
    ensures i <= |orders|
    ensures i < |orders| ==> orders[i].brokerOrderId == Some(id)
    ensures i == |orders| ==> !BrokerIdTaken(orders, id)
  {
    if orders == [] then 0
    else if orders[0].brokerOrderId == Some(id) then 0
    else
      var rest := BrokerIdIndex(orders[1..], id);
      assert rest == |orders[1..]| ==> forall k :: 1 <= k < |orders| ==> orders[k] == orders[1..][k - 1];
      1 + rest
  }

  function LbSubmit(cfg: LbConfig, s: Store, id: nat, reply: Reply): Result<(Store, BrokerResult)>
    requires id < |s.orders|
  {
    if s.orders[id].status != RiskApproved then Ok((s, BrokerResult(false, None)))
    else if !SubmissionAllowed(cfg) then
      Ok((Record(s, LbSubmissionBlocked, id), BrokerResult(false, None)))
    else
      var submitting :- Transition(s, id, Submitting, LbSubmitting);
      match reply
      case Unreachable =>
        var unknown :- Transition(submitting, id, Reconciling, LbSubmitUnknown);
        Ok((unknown, BrokerResult(false, None)))
      case GatewayError =>
        var failed :- Transition(submitting, id, Failed, LbSubmitFailed);
        Ok((failed, BrokerResult(false, None)))
      case Answered(text) =>
        // the broker id column is unique, so a repeated id fails the flush
        if BrokerIdTaken(s.orders, ExternalId(text)) then Raised(DuplicateBrokerId)
        else
          var o := submitting.orders[id].(brokerOrderId := Some(ExternalId(text)));
          var submitted :- Transition(SetOrder(submitting, id, o), id, Submitted, LbSubmitted);
          Ok((submitted, BrokerResult(true, Some(ExternalId(text)))))
  }

  function LbCancel(s: Store, id: nat, reply: Reply): Result<(Store, BrokerResult)>
    requires id < |s.orders|
  {
    var o := s.orders[id];
    if o.status !in {Submitted, PartiallyFilled} then Ok((s, BrokerResult(false, o.brokerOrderId)))
    else if o.brokerOrderId.None? then Ok((s, BrokerResult(false, None)))
    else
      var pending :- Transition(s, id, CancelPending, LbCancelPending);
      if reply.Answered? then Ok((pending, BrokerResult(true, o.brokerOrderId)))
      else
        var unknown :- Transition(pending, id, Reconciling, LbCancelUnresolved);
        Ok((unknown, BrokerResult(false, o.brokerOrderId)))
  }

  /** Status and outbox effect of a push for a known order. */
  function PushTo(s: Store, id: nat, target: OrderStatus): Result<Store>
    requires id < |s.orders|
  {
    var moved :- Transition(s, id, target, LbPush);
    Ok(if target == Filled then Enqueue(moved, OrderFilled(id))
       else if target == Cancelled then Enqueue(moved, OrderCancelled(id))
       else moved)
  }

  /** A push names a broker id and, when its status text is recognised, a target
      status.  A push without an id looks up the text "None". */
  function Push(s: Store, brokerId: Option<BrokerId>, target: Option<OrderStatus>): Result<Store> {
    var key := if brokerId.Some? then brokerId.value else ExternalId("None");
    var id := BrokerIdIndex(s.orders, key);
    if id == |s.orders| || target.None? || target.value == s.orders[id].status then Ok(s)
    else PushTo(s, id, target.value)
  }
}
