/** Executing an approved proposal: signal, order, risk check, submission and
    the two protective child orders, in one database transaction. */
module Executor {
  import opened Domain
  import opened Tables
  import opened Pricing
  import opened OrderService
  import opened Risk
  import opened LocalSim
  import opened Longbridge

  datatype Action = BuyAction | SellAction | HoldAction

  datatype Proposal = Proposal(
    action: Action,
    symbol: Symbol,
    quantity: real,
    orderType: OrderType,
    limitPrice: Option<real>,
    takeProfit: Option<real>,
    stopLoss: Option<real>)

  datatype Broker = UseSim(sim: SimConfig) | UseLongbridge(lb: LbConfig)

  /** A request together with what the environment supplies while it runs: the
      clock, the market calendar and the gateway's replies. */
  datatype Request = Request(
    proposal: Proposal,
    accountId: AccountId,
    trace: nat,
    strategy: nat,
    marketOpen: Option<bool>,
    now: int,
    mainReply: Reply,
    profitReply: Reply,
    lossReply: Reply)

  datatype Executed = Executed(orderId: nat, reused: bool, takeProfit: Option<nat>, stopLoss: Option<nat>)

  function FlatQuote(y: Symbol, price: real): Quote {
    Quote(y, price, Some(price), Some(price))
  }

  function SubmitVia(broker: Broker, s: Store, id: nat, quote: Quote, reply: Reply)
    : Result<(Store, BrokerResult)>
    requires id < |s.orders|
  {
    match broker
    case UseSim(cfg) => Submit(cfg, s, id, quote)
    case UseLongbridge(cfg) => LbSubmit(cfg, s, id, reply)
  }

  predicate OrderOfTrace(s: Store, o: Order, trace: nat, strategy: nat, y: Symbol) {
    && o.signal.Some? && o.signal.value < |s.signals|
    && s.signals[o.signal.value] == Signal(trace, strategy, y)
  }

  /** Index of an order whose signal carries this trace, or the table's length. */
  function TraceIndex(s: Store, trace: nat, strategy: nat, y: Symbol, from: nat): (i: nat)
    requires from <= |s.orders|
    ensures from <= i <= |s.orders|
    ensures i < |s.orders| ==> OrderOfTrace(s, s.orders[i], trace, strategy, y)
    decreases |s.orders| - from
  {
    if from == |s.orders| then from
    else if OrderOfTrace(s, s.orders[from], trace, strategy, y) then from
    else TraceIndex(s, trace, strategy, y, from + 1)
  }

  /** A take-profit or stop-loss child: created, approved without a risk check,
      and submitted at a quote equal to its own trigger price. */
  function SubmitBracket(broker: Broker, s: Store, intent: Intent, reply: Reply, now: int)
    : Result<(Store, nat)>
  {
    if !ValidIntent(intent) || intent.limitPrice.None? then Raised(InvalidInput)
    else
      var (created, id) := CreateOrder(s, intent, now);
      var approved :- Transition(created, id, RiskApproved, BracketAutoApproved);
      var (submitted, _) :- SubmitVia(broker, approved, id, FlatQuote(intent.symbol, intent.limitPrice.value), reply);
      Ok((submitted, id))
  }

  /** A price that is missing or zero asks for no child order. */
  predicate Wanted(price: Option<real>) {
    price.Some? && price.value != 0.0
  }

  function SubmitChild(broker: Broker, s: Store, parent: Intent, orderType: OrderType,
                       price: Option<real>, reply: Reply, now: int): Result<(Store, Option<nat>)>
  {
    if parent.side != Buy || !Wanted(price) then Ok((s, None))
    else
      var intent := parent.(side := Sell, orderType := orderType, limitPrice := price);
      var (submitted, id) :- SubmitBracket(broker, s, intent, reply, now);
      Ok((submitted, Some(id)))
  }

  function MainIntent(req: Request, signal: nat): Intent {
    var p := req.proposal;
    Intent(req.accountId, p.symbol, if p.action == BuyAction then Buy else Sell, p.orderType,
           p.quantity, p.limitPrice, Some(signal), Some(req.strategy))
  }

  /** The main order: created, risk checked and accepted by the broker. */
  function SubmitMain(broker: Broker, risk: RiskConfig, s: Store, req: Request, intent: Intent)
    : Result<(Store, nat)>
  {
    if req.proposal.action == HoldAction || !ValidIntent(intent) || intent.limitPrice.None? then
      Raised(InvalidInput)
    else
      var quote := FlatQuote(intent.symbol, intent.limitPrice.value);
      var (created, id) := CreateOrder(s, intent, req.now);
      var checked :- RunRiskCheck(risk, created, id, Context(Some(quote), req.marketOpen, req.now));
      if checked.orders[id].status != RiskApproved then Raised(RefusedByRisk)
      else
        var (submitted, result) :- SubmitVia(broker, checked, id, quote, req.mainReply);
        if result.accepted then Ok((submitted, id)) else Raised(RefusedByBroker)
  }

  function Execute(broker: Broker, risk: RiskConfig, s: Store, req: Request): (r: Result<(Store, Executed)>)
    ensures r.Ok? ==>
      (r.value.1.reused <==> TraceIndex(s, req.trace, req.strategy, req.proposal.symbol, 0) < |s.orders|)
  {
    var p := req.proposal;
    var existing := TraceIndex(s, req.trace, req.strategy, p.symbol, 0);
    if existing < |s.orders| then Ok((s, Executed(existing, true, None, None)))
    else
      var signalled := s.(signals := s.signals + [Signal(req.trace, req.strategy, p.symbol)]);
      var intent := MainIntent(req, |s.signals|);
      var (main, id) :- SubmitMain(broker, risk, signalled, req, intent);
      var (profit, profitId) :-
        SubmitChild(broker, main, intent, LimitIfTouched, p.takeProfit, req.profitReply, req.now);
      var (loss, lossId) :- SubmitChild(broker, profit, intent, StopLimit, p.stopLoss, req.lossReply, req.now);
      Ok((Record(loss, TradeApproved, id), Executed(id, false, profitId, lossId)))
  }
}
