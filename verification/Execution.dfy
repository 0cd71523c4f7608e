/** What a committed execution leaves behind, with either broker. */
module Execution {
  import opened Domain
  import opened Tables
  import opened Pricing
  import opened OrderService
  import opened Risk
  import opened LocalSim
  import opened Longbridge
  import opened Executor
  import opened Growth
  import opened Cash

  /** The order came out of the broker's hands: nothing half way is left. */
  predicate Done(broker: Broker, status: OrderStatus) {
    if broker.UseSim? then status == Filled else status in {Submitted, Reconciling, Failed}
  }

  /** An order quoted at its own limit trades there, whatever its type and side. */
  lemma FlatQuoteFills(o: Order, y: Symbol, price: real)
    requires o.limitPrice == Some(price)
    ensures FillPrice(o, FlatQuote(y, price)) == Some(price)
  {
  }

  /** What a submission may do to the tables an execution looks at. */
  ghost predicate OneRow(s: Store, s': Store, id: nat) {
    && id < |s.orders| == |s'.orders| && s'.orders == s.orders[id := s'.orders[id]]
    && s'.signals == s.signals && s'.accounts.Keys == s.accounts.Keys
    && SameRequest(s.orders[id], s'.orders[id])
  }

  lemma SimRefusedRow(s: Store, id: nat)
    requires id < |s.orders| && s.orders[id].status == RiskApproved
    ensures
      var refused := Refuse(s, id, SimReservationFailed);
      && refused.Ok? && !refused.value.1.accepted && OneRow(s, refused.value.0, id)
  {
  }

  lemma SimFilledRow(cfg: SimConfig, s: Store, id: nat, quote: Quote, price: real)
    requires id < |s.orders| && s.orders[id].status == RiskApproved
    requires Reserve(cfg, s, id, quote).Reserved?
    ensures
      var filled := ApplyFill(cfg, Accepted(cfg, s, id, quote), id, price);
      filled.Ok? && OneRow(s, filled.value, id) && filled.value.orders[id].status == Filled
  {
    AcceptedShape(cfg, s, id, quote);
    var accepted := Accepted(cfg, s, id, quote);
    FillShape(cfg, accepted, id, price);
    assert accepted.signals == s.signals;
    SettleCash(cfg, accepted, id, price, s.orders[id].accountId);
  }

  lemma BracketReserves(cfg: SimConfig, s: Store, id: nat, quote: Quote)
    requires id < |s.orders|
    ensures Reserve(cfg, s, id, quote).Reserved? ==> s.orders[id].accountId in s.accounts
    ensures IsBracket(s.orders[id]) && s.orders[id].accountId in s.accounts ==> Reserve(cfg, s, id, quote).Reserved?
  {
  }

  /** A submission at the order's own limit is refused or filled. */
  lemma SimSubmitRow(cfg: SimConfig, s: Store, id: nat, price: real)
    requires id < |s.orders| && s.orders[id].status == RiskApproved && s.orders[id].limitPrice == Some(price)
    ensures
      var o := s.orders[id];
      var r := Submit(cfg, s, id, FlatQuote(o.symbol, price));
      && r.Ok? && OneRow(s, r.value.0, id)
      && (r.value.1.accepted ==> r.value.0.orders[id].status == Filled && o.accountId in s.accounts)
      && (IsBracket(o) && o.accountId in s.accounts ==> r.value.1.accepted)
  {
    var o := s.orders[id];
    var quote := FlatQuote(o.symbol, price);
    SubmitShape(cfg, s, id, quote);
    BracketReserves(cfg, s, id, quote);
    FlatQuoteFills(o, o.symbol, price);
    if Reserve(cfg, s, id, quote).Reserved? {
      SimFilledRow(cfg, s, id, quote, price);
    } else {
      SimRefusedRow(s, id);
    }
  }

  lemma LbSubmitRow(cfg: LbConfig, s: Store, id: nat, reply: Reply)
    requires id < |s.orders| && s.orders[id].status == RiskApproved
    ensures
      match LbSubmit(cfg, s, id, reply)
      case Raised(_) => true
      case Ok((s', result)) =>
        && OneRow(s, s', id)
        && (result.accepted ==> s'.orders[id].status == Submitted && SubmissionAllowed(cfg))
        && (SubmissionAllowed(cfg) ==> s'.orders[id].status in {Submitted, Reconciling, Failed})
  {
  }

  /** The broker would take a child order: it took the order of the same account. */
  predicate Willing(broker: Broker, s: Store, a: AccountId) {
    match broker
    case UseSim(_) => a in s.accounts
    case UseLongbridge(cfg) => SubmissionAllowed(cfg)
  }

  lemma SubmitRow(broker: Broker, s: Store, id: nat, price: real, reply: Reply)
    requires id < |s.orders| && s.orders[id].status == RiskApproved && s.orders[id].limitPrice == Some(price)
    ensures
      var o := s.orders[id];
      match SubmitVia(broker, s, id, FlatQuote(o.symbol, price), reply)
      case Raised(_) => true
      case Ok((s', result)) =>
        && OneRow(s, s', id)
        && (result.accepted ==>
              && s'.orders[id].status == (if broker.UseSim? then Filled else Submitted)
              && Willing(broker, s', o.accountId))
        && (IsBracket(o) && Willing(broker, s, o.accountId) ==> Done(broker, s'.orders[id].status))
  {
    match broker
    case UseSim(cfg) => SimSubmitRow(cfg, s, id, price);
    case UseLongbridge(cfg) => LbSubmitRow(cfg, s, id, reply);
  }

  /** No created order of this signal is waiting for its risk check. */
  predicate NoneWaiting(s: Store, signal: Option<nat>) {
    forall k :: 0 <= k < |s.orders| && s.orders[k].signal == signal ==> s.orders[k].status != Created
  }

  /** A key of this signal that leads to a created order is a new one. */
  lemma NewOrderAppended(s: Store, intent: Intent, now: int)
    requires NoneWaiting(s, intent.signal)
    ensures
      var (s', id) := CreateOrder(s, intent, now);
      s'.orders[id].status == Created ==>
        && id == |s.orders| && s'.orders == s.orders + [NewOrder(intent, now)]
        && s'.accounts == s.accounts && s'.signals == s.signals
  {
  }

  /** Rows before `n` are untouched; row `n` is new. */
  ghost predicate Appended(s: Store, s': Store, n: nat) {
    && n == |s.orders| && |s'.orders| == n + 1 && s'.orders[..n] == s.orders
  }

  /** A new row that its broker call alone changed. */
  lemma AppendedRow(s: Store, c: Store, s': Store, row: Order)
    requires c.orders == s.orders + [row] && OneRow(c, s', |s.orders|)
    requires NoneWaiting(s, row.signal) && s'.orders[|s.orders|].status != Created
    ensures Appended(s, s', |s.orders|) && NoneWaiting(s', row.signal)
    ensures SameRequest(row, s'.orders[|s.orders|])
  {
    assert s'.orders[..|s.orders|] == s.orders;
  }

  /** What the order asks for. */
  predicate Asks(o: Order, a: AccountId, y: Symbol, side: Side, orderType: OrderType, quantity: real,
                 price: Option<real>)
  {
    && o.accountId == a && o.symbol == y && o.side == side && o.orderType == orderType
    && o.quantity == quantity && o.limitPrice == price
  }

  lemma ChildOutcome(broker: Broker, s: Store, parent: Intent, orderType: OrderType,
                     price: Option<real>, reply: Reply, now: int)
    requires SubmitChild(broker, s, parent, orderType, price, reply, now).Ok?
    requires parent.side == Buy && Wanted(price) && orderType in {LimitIfTouched, StopLimit}
    requires NoneWaiting(s, parent.signal) && Willing(broker, s, parent.accountId)
    ensures
      var (s', id) := SubmitChild(broker, s, parent, orderType, price, reply, now).value;
      && id.Some? && Appended(s, s', id.value)
      && Done(broker, s'.orders[id.value].status)
      && SameKey(s'.orders[id.value], parent.(side := Sell, orderType := orderType, limitPrice := price))
      && Asks(s'.orders[id.value], parent.accountId, parent.symbol, Sell, orderType, parent.quantity, price)
      && s'.signals == s.signals
      && NoneWaiting(s', parent.signal) && Willing(broker, s', parent.accountId)
  {
    var intent := parent.(side := Sell, orderType := orderType, limitPrice := price);
    NewOrderAppended(s, intent, now);
    var (created, id) := CreateOrder(s, intent, now);
    var approved := Transition(created, id, RiskApproved, BracketAutoApproved).value;
    assert created.orders[id].status == Created;
    var row := approved.orders[id];
    assert approved.orders == s.orders + [row];
    SubmitRow(broker, approved, id, price.value, reply);
    var s' := SubmitVia(broker, approved, id, FlatQuote(intent.symbol, price.value), reply).value.0;
    AppendedRow(s, approved, s', row);
  }

  lemma MainOutcome(broker: Broker, risk: RiskConfig, s: Store, req: Request, intent: Intent)
    requires SubmitMain(broker, risk, s, req, intent).Ok? && NoneWaiting(s, intent.signal)
    ensures
      var (s', id) := SubmitMain(broker, risk, s, req, intent).value;
      && Appended(s, s', id)
      && s'.orders[id].status == (if broker.UseSim? then Filled else Submitted)
      && SameKey(s'.orders[id], intent) && s'.signals == s.signals
      && Asks(s'.orders[id], intent.accountId, intent.symbol, intent.side, intent.orderType, intent.quantity,
              intent.limitPrice)
      && NoneWaiting(s', intent.signal) && Willing(broker, s', intent.accountId)
  {
    var price := intent.limitPrice.value;
    var ctx := Context(Some(FlatQuote(intent.symbol, price)), req.marketOpen, req.now);
    NewOrderAppended(s, intent, req.now);
    var (created, id) := CreateOrder(s, intent, req.now);
    CheckedRow(risk, created, id, ctx);
    var checked := RunRiskCheck(risk, created, id, ctx).value;
    var row := checked.orders[id];
    assert checked.orders == s.orders + [row];
    SubmitRow(broker, checked, id, price, req.mainReply);
    var s' := SubmitVia(broker, checked, id, FlatQuote(intent.symbol, price), req.mainReply).value.0;
    AppendedRow(s, checked, s', row);
  }

  lemma CheckedRow(risk: RiskConfig, s: Store, id: nat, ctx: Context)
    requires id < |s.orders| && (ctx.quote.Some? ==> ValidQuote(ctx.quote.value))
    requires RunRiskCheck(risk, s, id, ctx).Ok?
    ensures
      var s' := RunRiskCheck(risk, s, id, ctx).value;
      && s.orders[id].status == Created && |s'.orders| == |s.orders|
      && s'.orders == s.orders[id := s.orders[id].(status := s'.orders[id].status)]
      && s'.accounts == s.accounts && s'.signals == s.signals
  {
  }

  /** A child whose key is taken cannot be approved a second time. */
  lemma KeyClashRaises(broker: Broker, s: Store, parent: Intent, orderType: OrderType,
                       price: Option<real>, reply: Reply, now: int, k: nat)
    requires parent.side == Buy && Wanted(price) && NoneWaiting(s, parent.signal)
    requires k < |s.orders|
    requires SameKey(s.orders[k], parent.(side := Sell, orderType := orderType, limitPrice := price))
    ensures SubmitChild(broker, s, parent, orderType, price, reply, now).Raised?
  {
  }

  /** `s'` adds finished orders to those of `s`. */
  ghost predicate Adds(broker: Broker, s: Store, s': Store) {
    && |s.orders| <= |s'.orders| && s'.orders[..|s.orders|] == s.orders
    && forall k :: |s.orders| <= k < |s'.orders| ==> Done(broker, s'.orders[k].status)
  }

  /** A child order, if one is wanted. */
  lemma MaybeChild(broker: Broker, s: Store, parent: Intent, orderType: OrderType,
                   price: Option<real>, reply: Reply, now: int)
    requires SubmitChild(broker, s, parent, orderType, price, reply, now).Ok?
    requires orderType in {LimitIfTouched, StopLimit}
    requires NoneWaiting(s, parent.signal) && Willing(broker, s, parent.accountId)
    ensures
      var (s', id) := SubmitChild(broker, s, parent, orderType, price, reply, now).value;
      && Adds(broker, s, s')
      && (id.Some? <==> parent.side == Buy && Wanted(price))
      && |s'.orders| == |s.orders| + (if id.Some? then 1 else 0)
      && (id.Some? ==>
            && id.value == |s.orders|
            && SameKey(s'.orders[id.value], parent.(side := Sell, orderType := orderType, limitPrice := price))
            && Asks(s'.orders[id.value], parent.accountId, parent.symbol, Sell, orderType, parent.quantity, price))
      && s'.signals == s.signals
      && NoneWaiting(s', parent.signal) && Willing(broker, s', parent.accountId)
  {
    if parent.side == Buy && Wanted(price) {
      ChildOutcome(broker, s, parent, orderType, price, reply, now);
      var (s', id) := SubmitChild(broker, s, parent, orderType, price, reply, now).value;
      OneAdded(broker, s, s', id.value);
    }
  }

  lemma OneAdded(broker: Broker, s: Store, s': Store, id: nat)
    requires Appended(s, s', id) && Done(broker, s'.orders[id].status)
    ensures Adds(broker, s, s')
  {
  }

  lemma AddsTwice(broker: Broker, s: Store, t: Store, u: Store)
    requires Adds(broker, s, t) && Adds(broker, t, u)
    ensures Adds(broker, s, u)
  {
    assert u.orders[..|s.orders|] == u.orders[..|t.orders|][..|s.orders|];
    forall k | |s.orders| <= k < |u.orders|
      ensures Done(broker, u.orders[k].status)
    {
      assert k < |t.orders| ==> u.orders[k] == u.orders[..|t.orders|][k];
    }
  }

  /** The orders behind those of `s` are the children: a take-profit sale that trades once
      the bid has risen to its price, then a stop sale that trades once it has fallen. */
  ghost predicate Children(s: Store, s': Store, intent: Intent, p: Proposal, profit: Option<nat>, loss: Option<nat>) {
    && |s'.orders| == |s.orders| + (if profit.Some? then 1 else 0) + (if loss.Some? then 1 else 0)
    && (profit.Some? ==>
          && profit.value == |s.orders|
          && Asks(s'.orders[profit.value], intent.accountId, intent.symbol, Sell, LimitIfTouched, intent.quantity,
                  p.takeProfit))
    && (loss.Some? ==>
          && loss.value == |s'.orders| - 1
          && Asks(s'.orders[loss.value], intent.accountId, intent.symbol, Sell, StopLimit, intent.quantity, p.stopLoss))
  }

  /** Both children, in turn: finished, if wanted, and never at one price. */
  lemma ChildrenOutcome(broker: Broker, main: Store, intent: Intent, req: Request)
    requires NoneWaiting(main, intent.signal) && Willing(broker, main, intent.accountId)
    requires
      var p := req.proposal;
      var profit := SubmitChild(broker, main, intent, LimitIfTouched, p.takeProfit, req.profitReply, req.now);
      profit.Ok? && SubmitChild(broker, profit.value.0, intent, StopLimit, p.stopLoss, req.lossReply, req.now).Ok?
    ensures
      var p := req.proposal;
      var (profit, profitId) :=
        SubmitChild(broker, main, intent, LimitIfTouched, p.takeProfit, req.profitReply, req.now).value;
      var (loss, lossId) := SubmitChild(broker, profit, intent, StopLimit, p.stopLoss, req.lossReply, req.now).value;
      && Adds(broker, main, loss) && loss.signals == main.signals
      && (profitId.Some? <==> intent.side == Buy && Wanted(p.takeProfit))
      && (lossId.Some? <==> intent.side == Buy && Wanted(p.stopLoss))
      && (profitId.Some? && lossId.Some? ==> p.takeProfit != p.stopLoss)
      && Children(main, loss, intent, p, profitId, lossId)
  {
    var p := req.proposal;
    MaybeChild(broker, main, intent, LimitIfTouched, p.takeProfit, req.profitReply, req.now);
    var (profit, profitId) :=
      SubmitChild(broker, main, intent, LimitIfTouched, p.takeProfit, req.profitReply, req.now).value;
    MaybeChild(broker, profit, intent, StopLimit, p.stopLoss, req.lossReply, req.now);
    var (loss, lossId) := SubmitChild(broker, profit, intent, StopLimit, p.stopLoss, req.lossReply, req.now).value;
    if profitId.Some? && lossId.Some? && p.takeProfit == p.stopLoss {
      KeyClashRaises(broker, profit, intent, StopLimit, p.stopLoss, req.lossReply, req.now, profitId.value);
    }
    AddsTwice(broker, main, profit, loss);
    assert profitId.Some? ==> loss.orders[profitId.value] == loss.orders[..|profit.orders|][profitId.value];
  }

  /** What an execution puts into the books: the order the request asks for, behind the
      older ones and under a signal of its own, then for a buy a take-profit sale and a
      stop sale of the same shares, each if a price other than zero is named for it; no
      other order.  The approval is audited last. */
  ghost predicate Places(s: Store, s': Store, req: Request, done: Executed) {
    var p := req.proposal;
    && p.action != HoldAction && done.orderId == |s.orders| < |s'.orders|
    && s'.signals == s.signals + [Signal(req.trace, req.strategy, p.symbol)]
    && s'.audit != [] && s'.audit[|s'.audit| - 1] == AuditRow(TradeApproved, done.orderId, None, None)
    && Asks(s'.orders[done.orderId], req.accountId, p.symbol, if p.action == BuyAction then Buy else Sell,
            p.orderType, p.quantity, p.limitPrice)
    && (done.takeProfit.Some? <==> p.action == BuyAction && p.takeProfit.Some? && p.takeProfit.value != 0.0)
    && (done.stopLoss.Some? <==> p.action == BuyAction && p.stopLoss.Some? && p.stopLoss.value != 0.0)
    && |s'.orders| == |s.orders| + 1 + (if done.takeProfit.Some? then 1 else 0) + (if done.stopLoss.Some? then 1 else 0)
    && (done.takeProfit.Some? ==>
          && done.takeProfit.value == |s.orders| + 1
          && Asks(s'.orders[done.takeProfit.value], req.accountId, p.symbol, Sell, LimitIfTouched, p.quantity,
                  p.takeProfit))
    && (done.stopLoss.Some? ==>
          && done.stopLoss.value == |s'.orders| - 1
          && Asks(s'.orders[done.stopLoss.value], req.accountId, p.symbol, Sell, StopLimit, p.quantity, p.stopLoss))
  }

  /** A committed execution adds the main order and the children it was asked for,
      leaves every older order alone and no new order half way: with the paper
      broker all of them are filled, with the external one the main order is
      submitted and a child is submitted, failed or awaiting reconciliation.  Two
      children at one price never commit. */
  lemma ExecutionTheorem(broker: Broker, risk: RiskConfig, s: Store, req: Request)
    requires NoneWaiting(s, Some(|s.signals|))
    requires Execute(broker, risk, s, req).Ok? && !Execute(broker, risk, s, req).value.1.reused
    ensures
      var (s', done) := Execute(broker, risk, s, req).value;
      var p := req.proposal;
      && |s.orders| < |s'.orders| && s'.orders[..|s.orders|] == s.orders
      && done.orderId == |s.orders| && OrderOfTrace(s', s'.orders[done.orderId], req.trace, req.strategy, p.symbol)
      && s'.orders[done.orderId].status == (if broker.UseSim? then Filled else Submitted)
      && Places(s, s', req, done)
      && (forall k :: |s.orders| < k < |s'.orders| ==> Done(broker, s'.orders[k].status))
      && (done.takeProfit.Some? && done.stopLoss.Some? ==> p.takeProfit != p.stopLoss)
  {
    var p := req.proposal;
    var signalled := s.(signals := s.signals + [Signal(req.trace, req.strategy, p.symbol)]);
    var intent := MainIntent(req, |s.signals|);
    var main, loss := ExecutionStages(broker, risk, s, req, signalled, intent);
    MainOutcome(broker, risk, signalled, req, intent);
    ChildrenOutcome(broker, main, intent, req);
    assert loss.orders[..|s.orders|] == loss.orders[..|main.orders|][..|s.orders|];
    assert loss.orders[|s.orders|] == loss.orders[..|main.orders|][|s.orders|];
  }

  /** The stores that a committed execution goes through. */
  lemma ExecutionStages(broker: Broker, risk: RiskConfig, s: Store, req: Request, signalled: Store, intent: Intent)
    returns (main: Store, loss: Store)
    requires signalled == s.(signals := s.signals + [Signal(req.trace, req.strategy, req.proposal.symbol)])
    requires intent == MainIntent(req, |s.signals|)
    requires Execute(broker, risk, s, req).Ok? && !Execute(broker, risk, s, req).value.1.reused
    ensures SubmitMain(broker, risk, signalled, req, intent).Ok? && req.proposal.action != HoldAction
    ensures main == SubmitMain(broker, risk, signalled, req, intent).value.0
    ensures
      var p, id := req.proposal, SubmitMain(broker, risk, signalled, req, intent).value.1;
      var profit := SubmitChild(broker, main, intent, LimitIfTouched, p.takeProfit, req.profitReply, req.now);
      && profit.Ok?
      && var stop := SubmitChild(broker, profit.value.0, intent, StopLimit, p.stopLoss, req.lossReply, req.now);
         && stop.Ok? && loss == stop.value.0
         && Execute(broker, risk, s, req).value
              == (Record(loss, TradeApproved, id), Executed(id, false, profit.value.1, stop.value.1))
  {
    var p := req.proposal;
    main := SubmitMain(broker, risk, signalled, req, intent).value.0;
    var profit := SubmitChild(broker, main, intent, LimitIfTouched, p.takeProfit, req.profitReply, req.now).value.0;
    loss := SubmitChild(broker, profit, intent, StopLimit, p.stopLoss, req.lossReply, req.now).value.0;
  }

  /** The order goes back to a signal with the request's trace, strategy and symbol. */
  predicate GoesBackTo(s: Store, o: Order, req: Request) {
    match o.signal
    case None => false
    case Some(k) =>
      && k < |s.signals| && s.signals[k].trace == req.trace && s.signals[k].strategy == req.strategy
      && s.signals[k].symbol == req.proposal.symbol
  }

  /** The answer names an order that the request already led to. */
  ghost predicate Reuses(s: Store, req: Request, done: Executed) {
    && done.orderId < |s.orders| && done.takeProfit.None? && done.stopLoss.None?
    && GoesBackTo(s, s.orders[done.orderId], req)
  }

  /** A request is taken as sent before if and only if some order goes back to it. */
  lemma ReusedIff(broker: Broker, risk: RiskConfig, s: Store, req: Request)
    requires Execute(broker, risk, s, req).Ok?
    ensures Execute(broker, risk, s, req).value.1.reused
            <==> exists k :: 0 <= k < |s.orders| && GoesBackTo(s, s.orders[k], req)
  {
    TraceIndexIff(s, req, 0);
  }

  lemma {:induction false} TraceIndexIff(s: Store, req: Request, from: nat)
    requires from <= |s.orders|
    ensures TraceIndex(s, req.trace, req.strategy, req.proposal.symbol, from) < |s.orders|
            <==> exists k :: from <= k < |s.orders| && GoesBackTo(s, s.orders[k], req)
    decreases |s.orders| - from
  {
    if from < |s.orders| {
      TraceIndexIff(s, req, from + 1);
    }
  }

  /** A reused execution changes nothing, and answers with the order that is there. */
  lemma ReuseIsNoop(broker: Broker, risk: RiskConfig, s: Store, req: Request)
    requires Execute(broker, risk, s, req).Ok? && Execute(broker, risk, s, req).value.1.reused
    ensures Execute(broker, risk, s, req).value.0 == s
    ensures Reuses(s, req, Execute(broker, risk, s, req).value.1)
  {
  }

  lemma MainAndRest(broker: Broker, s: Store, s': Store)
    requires |s.orders| < |s'.orders| && s'.orders[..|s.orders|] == s.orders
    requires Done(broker, s'.orders[|s.orders|].status)
    requires forall k :: |s.orders| < k < |s'.orders| ==> Done(broker, s'.orders[k].status)
    ensures Adds(broker, s, s')
  {
  }

  /** With the paper broker, every row an execution adds is filled. */
  lemma SimExecutionFills(cfg: SimConfig, risk: RiskConfig, s: Store, req: Request)
    requires NoneWaiting(s, Some(|s.signals|)) && Execute(UseSim(cfg), risk, s, req).Ok?
    ensures Adds(UseSim(cfg), s, Execute(UseSim(cfg), risk, s, req).value.0)
  {
    var (s', done) := Execute(UseSim(cfg), risk, s, req).value;
    if done.reused {
      ReuseIsNoop(UseSim(cfg), risk, s, req);
      assert s'.orders == s.orders;
    } else {
      ExecutionTheorem(UseSim(cfg), risk, s, req);
      MainAndRest(UseSim(cfg), s, s');
    }
  }
}
