/** Nothing is ever erased: in every run, with either broker, logs only get longer
    and what an order asked for never changes. */
module Growth {
  import opened Domain
  import opened Tables
  import opened Pricing
  import opened OrderService
  import opened Risk
  import opened LocalSim
  import opened Longbridge
  import opened Executor
  import opened Runs

  /** Only status, fill and broker id may differ. */
  predicate SameRequest(o: Order, o': Order) {
    o' == o.(status := o'.status, filledQuantity := o'.filledQuantity,
             avgFillPrice := o'.avgFillPrice, brokerOrderId := o'.brokerOrderId)
  }

  ghost predicate KeepsOrders(orders: seq<Order>, orders': seq<Order>) {
    |orders| <= |orders'| && forall k :: 0 <= k < |orders| ==> SameRequest(orders[k], orders'[k])
  }

  ghost predicate KeepsLogs(s: Store, s': Store) {
    && s.audit <= s'.audit && s.outbox <= s'.outbox
    && s.fills <= s'.fills && s.cashLedger <= s'.cashLedger && s.signals <= s'.signals
  }

  ghost predicate Grows(s: Store, s': Store) {
    KeepsLogs(s, s') && KeepsOrders(s.orders, s'.orders)
  }

  lemma GrowsTrans(s: Store, t: Store, u: Store)
    requires Grows(s, t) && Grows(t, u)
    ensures Grows(s, u)
  {
    forall k | 0 <= k < |s.orders| ensures SameRequest(s.orders[k], u.orders[k]) {
      assert SameRequest(s.orders[k], t.orders[k]) && SameRequest(t.orders[k], u.orders[k]);
    }
  }

  // ---- the steps calls are made of ------------------------------------------------------

  lemma RecordGrows(s: Store, event: AuditEvent, id: nat)
    ensures Grows(s, Record(s, event, id))
  {
  }

  lemma EnqueueGrows(s: Store, event: OutboxEvent)
    ensures Grows(s, Enqueue(s, event))
  {
  }

  lemma TransitionGrows(s: Store, id: nat, target: OrderStatus, event: AuditEvent)
    requires id < |s.orders| && Transition(s, id, target, event).Ok?
    ensures Grows(s, Transition(s, id, target, event).value)
  {
  }

  lemma CreateGrows(s: Store, intent: Intent, now: int)
    ensures Grows(s, CreateOrder(s, intent, now).0)
  {
  }

  lemma RiskGrows(risk: RiskConfig, s: Store, id: nat, ctx: Context)
    requires id < |s.orders| && (ctx.quote.Some? ==> ValidQuote(ctx.quote.value))
    requires RunRiskCheck(risk, s, id, ctx).Ok?
    ensures Grows(s, RunRiskCheck(risk, s, id, ctx).value)
  {
    var target := if Check(risk, s, id, ctx) == Approved then RiskApproved else RiskRejected;
    TransitionGrows(s, id, target, RiskCheckCompleted);
    var moved := Transition(s, id, target, RiskCheckCompleted).value;
    EnqueueGrows(moved, OrderReadyToSubmit(id));
    GrowsTrans(s, moved, Enqueue(moved, OrderReadyToSubmit(id)));
  }

  // ---- the paper broker ---------------------------------------------------------------------

  lemma SettleGrows(cfg: SimConfig, s: Store, id: nat, price: real)
    requires id < |s.orders| && s.orders[id].accountId in s.accounts
    ensures Grows(s, Settle(cfg, s, id, price))
  {
  }

  lemma FillGrows(cfg: SimConfig, s: Store, id: nat, price: real)
    requires id < |s.orders| && ApplyFill(cfg, s, id, price).Ok?
    ensures Grows(s, ApplyFill(cfg, s, id, price).value)
  {
    SettleGrows(cfg, s, id, price);
    var settled := Settle(cfg, s, id, price);
    TransitionGrows(settled, id, Filled, SimFilled);
    var filled := Transition(settled, id, Filled, SimFilled).value;
    GrowsTrans(s, settled, filled);
    GrowsTrans(s, filled, ApplyFill(cfg, s, id, price).value);
  }

  lemma MatchGrows(cfg: SimConfig, s: Store, id: nat, quote: Quote)
    requires id < |s.orders| && Match(cfg, s, id, quote).Ok?
    ensures Grows(s, Match(cfg, s, id, quote).value)
  {
    var price := FillPrice(s.orders[id], quote);
    if price.Some? {
      FillGrows(cfg, s, id, price.value);
    }
  }

  lemma ReserveGrows(cfg: SimConfig, s: Store, id: nat, quote: Quote)
    requires id < |s.orders| && Reserve(cfg, s, id, quote).Reserved?
    ensures Grows(s, Reserve(cfg, s, id, quote).store) && |Reserve(cfg, s, id, quote).store.orders| == |s.orders|
  {
  }

  lemma AcceptGrows(s: Store, id: nat)
    requires id < |s.orders| && Accept(s, id).Ok?
    ensures Grows(s, Accept(s, id).value) && |Accept(s, id).value.orders| == |s.orders|
  {
    TransitionGrows(s, id, Submitting, SimSubmitting);
    var submitting := Transition(s, id, Submitting, SimSubmitting).value;
    var named := SetOrder(submitting, id, submitting.orders[id].(brokerOrderId := Some(LocalSimId(id))));
    TransitionGrows(named, id, Submitted, SimSubmitted);
    GrowsTrans(s, submitting, named);
    GrowsTrans(s, named, Accept(s, id).value);
  }

  lemma SubmitGrows(cfg: SimConfig, s: Store, id: nat, quote: Quote)
    requires id < |s.orders| && Submit(cfg, s, id, quote).Ok?
    ensures Grows(s, Submit(cfg, s, id, quote).value.0)
  {
    var o := s.orders[id];
    if o.status == RiskApproved {
      if quote.symbol != o.symbol {
        TransitionGrows(s, id, Failed, SimSymbolMismatch);
      } else if Reserve(cfg, s, id, quote).Refused? {
        TransitionGrows(s, id, Failed, SimReservationFailed);
      } else {
        SubmitReservedGrows(cfg, s, id, quote);
      }
    }
  }

  lemma SubmitReservedGrows(cfg: SimConfig, s: Store, id: nat, quote: Quote)
    requires id < |s.orders| && s.orders[id].status == RiskApproved && quote.symbol == s.orders[id].symbol
    requires Reserve(cfg, s, id, quote).Reserved? && Submit(cfg, s, id, quote).Ok?
    ensures Grows(s, Submit(cfg, s, id, quote).value.0)
  {
    ReserveGrows(cfg, s, id, quote);
    var held := Reserve(cfg, s, id, quote).store;
    AcceptGrows(held, id);
    var accepted := Accept(held, id).value;
    MatchGrows(cfg, accepted, id, quote);
    GrowsTrans(s, held, accepted);
    GrowsTrans(s, accepted, Match(cfg, accepted, id, quote).value);
  }

  lemma ReleaseGrows(cfg: SimConfig, s: Store, id: nat)
    requires id < |s.orders| && Release(cfg, s, id).Ok?
    ensures Grows(s, Release(cfg, s, id).value) && |Release(cfg, s, id).value.orders| == |s.orders|
  {
  }

  lemma CancelGrows(cfg: SimConfig, s: Store, id: nat)
    requires id < |s.orders| && Cancel(cfg, s, id).Ok?
    ensures Grows(s, Cancel(cfg, s, id).value.0)
  {
    if s.orders[id].status == Submitted {
      TransitionGrows(s, id, CancelPending, SimCancelPending);
      var pending := Transition(s, id, CancelPending, SimCancelPending).value;
      ReleaseGrows(cfg, pending, id);
      var released := Release(cfg, pending, id).value;
      TransitionGrows(released, id, Cancelled, SimCancelled);
      var cancelled := Transition(released, id, Cancelled, SimCancelled).value;
      GrowsTrans(s, pending, released);
      GrowsTrans(s, released, cancelled);
      EnqueueGrows(cancelled, OrderCancelled(id));
      GrowsTrans(s, cancelled, Enqueue(cancelled, OrderCancelled(id)));
    }
  }

  lemma {:induction false} MatchRowsGrows(cfg: SimConfig, s: Store, quote: Quote, rows: seq<nat>)
    requires forall i :: 0 <= i < |rows| ==> rows[i] < |s.orders|
    requires MatchRows(cfg, s, quote, rows).Ok?
    ensures Grows(s, MatchRows(cfg, s, quote, rows).value)
  {
    if rows != [] {
      var last := |rows| - 1;
      MatchRowsGrows(cfg, s, quote, rows[..last]);
      var before := MatchRows(cfg, s, quote, rows[..last]).value;
      MatchGrows(cfg, before, rows[last], quote);
      GrowsTrans(s, before, MatchRows(cfg, s, quote, rows).value);
    }
  }

  // ---- the external broker --------------------------------------------------------------------

  lemma LbSubmitGrows(cfg: LbConfig, s: Store, id: nat, reply: Reply)
    requires id < |s.orders| && LbSubmit(cfg, s, id, reply).Ok?
    ensures Grows(s, LbSubmit(cfg, s, id, reply).value.0)
  {
  }

  lemma LbCancelGrows(s: Store, id: nat, reply: Reply)
    requires id < |s.orders| && LbCancel(s, id, reply).Ok?
    ensures Grows(s, LbCancel(s, id, reply).value.0)
  {
  }

  lemma PushGrows(s: Store, brokerId: Option<BrokerId>, target: Option<OrderStatus>)
    requires Push(s, brokerId, target).Ok?
    ensures Grows(s, Push(s, brokerId, target).value)
  {
    var key := if brokerId.Some? then brokerId.value else ExternalId("None");
    var id := BrokerIdIndex(s.orders, key);
    if id < |s.orders| && target.Some? && target.value != s.orders[id].status {
      TransitionGrows(s, id, target.value, LbPush);
      var moved := Transition(s, id, target.value, LbPush).value;
      GrowsTrans(s, moved, Push(s, brokerId, target).value);
    }
  }

  // ---- the executor ------------------------------------------------------------------------------

  lemma SubmitViaGrows(broker: Broker, s: Store, id: nat, quote: Quote, reply: Reply)
    requires id < |s.orders| && SubmitVia(broker, s, id, quote, reply).Ok?
    ensures Grows(s, SubmitVia(broker, s, id, quote, reply).value.0)
  {
    match broker
    case UseSim(cfg) => SubmitGrows(cfg, s, id, quote);
    case UseLongbridge(cfg) => LbSubmitGrows(cfg, s, id, reply);
  }

  lemma ChildGrows(broker: Broker, s: Store, parent: Intent, orderType: OrderType,
                   price: Option<real>, reply: Reply, now: int)
    requires SubmitChild(broker, s, parent, orderType, price, reply, now).Ok?
    ensures Grows(s, SubmitChild(broker, s, parent, orderType, price, reply, now).value.0)
  {
    if parent.side == Buy && Wanted(price) {
      var intent := parent.(side := Sell, orderType := orderType, limitPrice := price);
      CreateGrows(s, intent, now);
      var (created, id) := CreateOrder(s, intent, now);
      TransitionGrows(created, id, RiskApproved, BracketAutoApproved);
      var approved := Transition(created, id, RiskApproved, BracketAutoApproved).value;
      var quote := FlatQuote(intent.symbol, price.value);
      SubmitViaGrows(broker, approved, id, quote, reply);
      GrowsTrans(s, created, approved);
      GrowsTrans(s, approved, SubmitVia(broker, approved, id, quote, reply).value.0);
    }
  }

  lemma MainGrows(broker: Broker, risk: RiskConfig, s: Store, req: Request, intent: Intent)
    requires SubmitMain(broker, risk, s, req, intent).Ok?
    ensures Grows(s, SubmitMain(broker, risk, s, req, intent).value.0)
  {
    var quote := FlatQuote(intent.symbol, intent.limitPrice.value);
    var ctx := Context(Some(quote), req.marketOpen, req.now);
    CreateGrows(s, intent, req.now);
    var (created, id) := CreateOrder(s, intent, req.now);
    RiskGrows(risk, created, id, ctx);
    var checked := RunRiskCheck(risk, created, id, ctx).value;
    SubmitViaGrows(broker, checked, id, quote, req.mainReply);
    GrowsTrans(s, created, checked);
    GrowsTrans(s, checked, SubmitVia(broker, checked, id, quote, req.mainReply).value.0);
  }

  lemma ExecuteGrows(broker: Broker, risk: RiskConfig, s: Store, req: Request)
    requires Execute(broker, risk, s, req).Ok?
    ensures Grows(s, Execute(broker, risk, s, req).value.0)
  {
    var p := req.proposal;
    if TraceIndex(s, req.trace, req.strategy, p.symbol, 0) == |s.orders| {
      var signalled := s.(signals := s.signals + [Signal(req.trace, req.strategy, p.symbol)]);
      var intent := MainIntent(req, |s.signals|);
      MainGrows(broker, risk, signalled, req, intent);
      var (main, id) := SubmitMain(broker, risk, signalled, req, intent).value;
      ChildGrows(broker, main, intent, LimitIfTouched, p.takeProfit, req.profitReply, req.now);
      var profit := SubmitChild(broker, main, intent, LimitIfTouched, p.takeProfit, req.profitReply, req.now).value.0;
      ChildGrows(broker, profit, intent, StopLimit, p.stopLoss, req.lossReply, req.now);
      var loss := SubmitChild(broker, profit, intent, StopLimit, p.stopLoss, req.lossReply, req.now).value.0;
      GrowsTrans(s, signalled, main);
      GrowsTrans(s, main, profit);
      GrowsTrans(s, profit, loss);
      RecordGrows(loss, TradeApproved, id);
      GrowsTrans(s, loss, Record(loss, TradeApproved, id));
    }
  }

  // ---- every step, every run -----------------------------------------------------------------------

  lemma StepGrows(cfg: Config, s: Store, step: Step)
    requires Enabled(cfg, s, step)
    ensures Grows(s, Apply(cfg, s, step))
  {
    if Call(cfg, s, step).Ok? {
      match step
      case StepCreate(intent, now) => CreateGrows(s, intent, now);
      case StepRisk(id, ctx) => RiskGrows(cfg.risk, s, id, ctx);
      case StepBracket(id) => TransitionGrows(s, id, RiskApproved, BracketAutoApproved);
      case StepSimSubmit(id, quote) => SubmitGrows(cfg.sim, s, id, quote);
      case StepSimCancel(id) => CancelGrows(cfg.sim, s, id);
      case StepSimQuote(quote, rows) => MatchRowsGrows(cfg.sim, s, quote, rows);
      case StepLbSubmit(id, reply) => LbSubmitGrows(cfg.lb, s, id, reply);
      case StepLbCancel(id, reply) => LbCancelGrows(s, id, reply);
      case StepPush(brokerId, target) => PushGrows(s, brokerId, target);
      case StepExecute(broker, req) => ExecuteGrows(broker, cfg.risk, s, req);
    }
  }

  lemma RunStepGrows(cfg: Config, states: seq<Store>, steps: seq<Step>, i: nat)
    requires IsRun(cfg, states, steps) && i < |steps|
    ensures Grows(states[i], states[i + 1])
  {
    assert Enabled(cfg, states[i], steps[i]) && states[i + 1] == Apply(cfg, states[i], steps[i]);
    StepGrows(cfg, states[i], steps[i]);
  }

  ghost predicate EachGrows(states: seq<Store>) {
    forall i :: 0 <= i < |states| - 1 ==> Grows(states[i], states[i + 1])
  }

  lemma RunIsGrowing(cfg: Config, states: seq<Store>, steps: seq<Step>)
    requires IsRun(cfg, states, steps)
    ensures EachGrows(states)
  {
    forall i | 0 <= i < |states| - 1
      ensures Grows(states[i], states[i + 1])
    {
      RunStepGrows(cfg, states, steps, i);
    }
  }

  lemma {:induction false} GrowsAlong(states: seq<Store>, i: nat, k: nat)
    requires EachGrows(states) && i <= k < |states|
    ensures Grows(states[i], states[k])
  {
    if i < k {
      GrowsAlong(states, i, k - 1);
      GrowsTrans(states[i], states[k - 1], states[k]);
    }
  }

  /** Between any two states of a run, every log keeps its rows as a prefix and every
      order still asks for what it asked for. */
  lemma RunGrows(cfg: Config, states: seq<Store>, steps: seq<Step>, i: nat, k: nat)
    requires IsRun(cfg, states, steps) && i <= k < |states|
    ensures Grows(states[i], states[k])
  {
    RunIsGrowing(cfg, states, steps);
    GrowsAlong(states, i, k);
  }
}
