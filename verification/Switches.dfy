/** The safety switches of the external broker: while they are off, no run sends an order. */
module Switches {
  import opened Domain
  import opened Tables
  import opened Pricing
  import opened OrderService
  import opened Risk
  import opened LocalSim
  import opened Longbridge
  import opened Executor
  import opened Runs
  import opened Cash
  import opened Execution
  import opened Triggers

  /** Orders may be submitted; live ones only with a switch of their own. */
  predicate SwitchedOn(cfg: LbConfig) {
    cfg.enableSubmission && (cfg.mode == Paper || (cfg.mode == Live && cfg.enableLive))
  }

  lemma AllowedIff(cfg: LbConfig)
    ensures SubmissionAllowed(cfg) <==> SwitchedOn(cfg)
  {
  }

  predicate IsExternal(o: Order) {
    o.brokerOrderId.Some? && o.brokerOrderId.value.ExternalId?
  }

  ghost predicate NoneExternal(orders: seq<Order>) {
    forall k :: 0 <= k < |orders| ==> !IsExternal(orders[k])
  }

  // ---- calls ------------------------------------------------------------------------------------

  lemma SubmitSendsNone(cfg: SimConfig, s: Store, id: nat, quote: Quote)
    requires NoneExternal(s.orders) && id < |s.orders|
    ensures Submit(cfg, s, id, quote).Ok? && NoneExternal(Submit(cfg, s, id, quote).value.0.orders)
  {
    SubmitShape(cfg, s, id, quote);
    if s.orders[id].status == RiskApproved {
      SubmitTrades(cfg, s, id, quote);
      assert !IsExternal(s.orders[id]);
    }
  }

  lemma CancelSendsNone(cfg: SimConfig, s: Store, id: nat)
    requires NoneExternal(s.orders) && id < |s.orders| && Cancel(cfg, s, id).Ok?
    ensures NoneExternal(Cancel(cfg, s, id).value.0.orders)
  {
    if s.orders[id].status == Submitted {
      CancelShape(cfg, s, id);
      assert !IsExternal(s.orders[id]);
    }
  }

  lemma QuoteSendsNone(cfg: SimConfig, s: Store, quote: Quote, rows: seq<nat>)
    requires NoneExternal(s.orders) && RestingRows(s.orders, quote.symbol, rows)
    requires MatchRows(cfg, s, quote, rows).Ok?
    ensures NoneExternal(MatchRows(cfg, s, quote, rows).value.orders)
  {
    QuoteTrades(cfg, s, quote, rows);
    var now := MatchRows(cfg, s, quote, rows).value.orders;
    forall k | 0 <= k < |now|
      ensures !IsExternal(now[k])
    {
      assert !IsExternal(s.orders[k]);
    }
  }

  lemma RiskSendsNone(risk: RiskConfig, s: Store, id: nat, ctx: Context)
    requires NoneExternal(s.orders) && id < |s.orders| && (ctx.quote.Some? ==> ValidQuote(ctx.quote.value))
    requires RunRiskCheck(risk, s, id, ctx).Ok?
    ensures NoneExternal(RunRiskCheck(risk, s, id, ctx).value.orders)
  {
    CheckedRow(risk, s, id, ctx);
    assert !IsExternal(s.orders[id]);
  }

  /** A blocked submission is refused, and changes no order. */
  lemma BlockedSendsNone(cfg: LbConfig, s: Store, id: nat, reply: Reply)
    requires !SwitchedOn(cfg) && id < |s.orders|
    ensures
      var r := LbSubmit(cfg, s, id, reply);
      r.Ok? && !r.value.1.accepted && r.value.0.orders == s.orders
  {
  }

  lemma LbCancelSendsNone(s: Store, id: nat, reply: Reply)
    requires NoneExternal(s.orders) && id < |s.orders| && LbCancel(s, id, reply).Ok?
    ensures NoneExternal(LbCancel(s, id, reply).value.0.orders)
  {
    assert !IsExternal(s.orders[id]);
  }

  lemma PushSendsNone(s: Store, brokerId: Option<BrokerId>, target: Option<OrderStatus>)
    requires NoneExternal(s.orders) && Push(s, brokerId, target).Ok?
    ensures NoneExternal(Push(s, brokerId, target).value.orders)
  {
    var id := BrokerIdIndex(s.orders, if brokerId.Some? then brokerId.value else ExternalId("None"));
    assert id < |s.orders| ==> !IsExternal(s.orders[id]);
  }

  lemma SubmitViaSendsNone(broker: Broker, s: Store, id: nat, quote: Quote, reply: Reply)
    requires NoneExternal(s.orders) && id < |s.orders| && (broker.UseLongbridge? ==> !SwitchedOn(broker.lb))
    ensures
      var r := SubmitVia(broker, s, id, quote, reply);
      && r.Ok? && NoneExternal(r.value.0.orders)
      && (broker.UseLongbridge? ==> !r.value.1.accepted)
  {
    match broker
    case UseSim(cfg) => SubmitSendsNone(cfg, s, id, quote);
    case UseLongbridge(cfg) => BlockedSendsNone(cfg, s, id, reply);
  }

  lemma MainSendsNone(broker: Broker, risk: RiskConfig, s: Store, req: Request, intent: Intent)
    requires NoneExternal(s.orders) && (broker.UseLongbridge? ==> !SwitchedOn(broker.lb))
    requires SubmitMain(broker, risk, s, req, intent).Ok?
    ensures broker.UseSim? && NoneExternal(SubmitMain(broker, risk, s, req, intent).value.0.orders)
  {
    var quote := FlatQuote(intent.symbol, intent.limitPrice.value);
    var ctx := Context(Some(quote), req.marketOpen, req.now);
    var (created, id) := CreateOrder(s, intent, req.now);
    RiskSendsNone(risk, created, id, ctx);
    SubmitViaSendsNone(broker, RunRiskCheck(risk, created, id, ctx).value, id, quote, req.mainReply);
  }

  lemma ChildSendsNone(broker: Broker, s: Store, parent: Intent, orderType: OrderType,
                       price: Option<real>, reply: Reply, now: int)
    requires NoneExternal(s.orders) && broker.UseSim?
    requires SubmitChild(broker, s, parent, orderType, price, reply, now).Ok?
    ensures NoneExternal(SubmitChild(broker, s, parent, orderType, price, reply, now).value.0.orders)
  {
    if parent.side == Buy && Wanted(price) {
      var intent := parent.(side := Sell, orderType := orderType, limitPrice := price);
      var (created, id) := CreateOrder(s, intent, now);
      var approved := Transition(created, id, RiskApproved, BracketAutoApproved).value;
      assert !IsExternal(created.orders[id]);
      SubmitViaSendsNone(broker, approved, id, FlatQuote(intent.symbol, price.value), reply);
    }
  }

  /** While the switches are off, an execution through the external broker never commits. */
  lemma ExecuteSendsNone(broker: Broker, risk: RiskConfig, s: Store, req: Request)
    requires NoneExternal(s.orders) && (broker.UseLongbridge? ==> !SwitchedOn(broker.lb))
    requires Execute(broker, risk, s, req).Ok?
    ensures NoneExternal(Execute(broker, risk, s, req).value.0.orders)
    ensures broker.UseSim? || Execute(broker, risk, s, req).value.1.reused
  {
    var p := req.proposal;
    if TraceIndex(s, req.trace, req.strategy, p.symbol, 0) == |s.orders| {
      var signalled := s.(signals := s.signals + [Signal(req.trace, req.strategy, p.symbol)]);
      var intent := MainIntent(req, |s.signals|);
      MainSendsNone(broker, risk, signalled, req, intent);
      var main := SubmitMain(broker, risk, signalled, req, intent).value.0;
      ChildSendsNone(broker, main, intent, LimitIfTouched, p.takeProfit, req.profitReply, req.now);
      var profit := SubmitChild(broker, main, intent, LimitIfTouched, p.takeProfit, req.profitReply, req.now).value.0;
      ChildSendsNone(broker, profit, intent, StopLimit, p.stopLoss, req.lossReply, req.now);
    }
  }

  // ---- every step, every run -----------------------------------------------------------------------

  lemma StepSendsNone(cfg: Config, s: Store, step: Step)
    requires NoneExternal(s.orders) && Enabled(cfg, s, step) && !SwitchedOn(cfg.lb)
    ensures NoneExternal(Apply(cfg, s, step).orders)
  {
    if Call(cfg, s, step).Ok? {
      match step
      case StepCreate(intent, now) =>
      case StepRisk(id, ctx) => RiskSendsNone(cfg.risk, s, id, ctx);
      case StepBracket(id) => assert !IsExternal(s.orders[id]);
      case StepSimSubmit(id, quote) => SubmitSendsNone(cfg.sim, s, id, quote);
      case StepSimCancel(id) => CancelSendsNone(cfg.sim, s, id);
      case StepSimQuote(quote, rows) => QuoteSendsNone(cfg.sim, s, quote, rows);
      case StepLbSubmit(id, reply) => BlockedSendsNone(cfg.lb, s, id, reply);
      case StepLbCancel(id, reply) => LbCancelSendsNone(s, id, reply);
      case StepPush(brokerId, target) => PushSendsNone(s, brokerId, target);
      case StepExecute(broker, req) => ExecuteSendsNone(broker, cfg.risk, s, req);
    }
  }

  /** While the switches are off, no order of a run ever gets an external broker id, whatever
      the gateway answers. */
  lemma {:induction false} SwitchTheorem(cfg: Config, states: seq<Store>, steps: seq<Step>, i: nat)
    requires IsRun(cfg, states, steps) && IsOpening(states[0]) && i < |states| && !SwitchedOn(cfg.lb)
    ensures NoneExternal(states[i].orders)
  {
    if i > 0 {
      SwitchTheorem(cfg, states, steps, i - 1);
      assert Enabled(cfg, states[i - 1], steps[i - 1]) && states[i] == Apply(cfg, states[i - 1], steps[i - 1]);
      StepSendsNone(cfg, states[i - 1], steps[i - 1]);
    }
  }
}
