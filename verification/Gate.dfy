/** Safety of the risk gate: at most one working buy per instrument, and approval
    that the broker can honour. */
module Gate {
  import opened Domain
  import opened Tables
  import opened Pricing
  import opened OrderService
  import opened Risk
  import opened LocalSim
  import opened Longbridge
  import opened Executor
  import opened Runs
  import opened Growth
  import opened Book
  import opened Cash
  import opened Execution

  // ---- rows ---------------------------------------------------------------------------

  /** The rows a submission may leave: one changes, keeps its request, and moves
      only from risk approved to failed, submitted or filled. */
  lemma SubmitChangesRow(cfg: SimConfig, s: Store, id: nat, quote: Quote)
    requires id < |s.orders| && Submit(cfg, s, id, quote).Ok?
    ensures
      var s' := Submit(cfg, s, id, quote).value.0;
      && |s'.orders| == |s.orders| && s'.orders == s.orders[id := s'.orders[id]]
      && SameRequest(s.orders[id], s'.orders[id])
      && (|| s'.orders[id] == s.orders[id]
          || (s.orders[id].status == RiskApproved && s'.orders[id].status in {Failed, Submitted, Filled}))
  {
    SubmitShape(cfg, s, id, quote);
    if s.orders[id].status == RiskApproved && quote.symbol == s.orders[id].symbol
       && Reserve(cfg, s, id, quote).Reserved? {
      AcceptedShape(cfg, s, id, quote);
      if FillPrice(s.orders[id], quote).Some? {
        FillShape(cfg, Accepted(cfg, s, id, quote), id, FillPrice(s.orders[id], quote).value);
      }
    }
  }

  // ---- at most one working buy ----------------------------------------------------------

  predicate Working(status: OrderStatus) {
    status in {RiskApproved, Submitting, Submitted, PartiallyFilled}
  }

  ghost predicate OneWorkingBuy(orders: seq<Order>) {
    forall i, j :: 0 <= i < |orders| && 0 <= j < |orders| && i != j
      && orders[i].side == Buy && Working(orders[i].status) && Working(orders[j].status)
      ==> !Similar(orders[i], orders[j])
  }

  /** A row that does not start working keeps the buys apart. */
  lemma RowKeepsOneBuy(orders: seq<Order>, id: nat, o: Order)
    requires OneWorkingBuy(orders) && id < |orders| && SameRequest(orders[id], o)
    requires o.side == Buy && Working(o.status) ==> Working(orders[id].status)
    ensures OneWorkingBuy(orders[id := o])
  {
    var now := orders[id := o];
    forall i, j | 0 <= i < |now| && 0 <= j < |now| && i != j
      && now[i].side == Buy && Working(now[i].status) && Working(now[j].status)
      ensures !Similar(now[i], now[j])
    {
      if Similar(now[i], now[j]) {
        assert orders[i].side == Buy && orders[j].side == Buy;
        assert Similar(orders[i], orders[j]);
      }
    }
  }

  lemma CreateKeepsOneBuy(s: Store, intent: Intent, now: int)
    requires OneWorkingBuy(s.orders)
    ensures OneWorkingBuy(CreateOrder(s, intent, now).0.orders)
  {
  }

  /** Approval is given only when no similar order is open. */
  lemma RiskKeepsOneBuy(cfg: RiskConfig, s: Store, id: nat, ctx: Context)
    requires OneWorkingBuy(s.orders) && id < |s.orders| && (ctx.quote.Some? ==> ValidQuote(ctx.quote.value))
    requires RunRiskCheck(cfg, s, id, ctx).Ok?
    ensures OneWorkingBuy(RunRiskCheck(cfg, s, id, ctx).value.orders)
  {
    CheckedRow(cfg, s, id, ctx);
    var now := RunRiskCheck(cfg, s, id, ctx).value.orders;
    if Check(cfg, s, id, ctx) != Approved {
      RowKeepsOneBuy(s.orders, id, now[id]);
    } else {
      assert !DuplicateOpen(s.orders, id);
      forall i, j | 0 <= i < |now| && 0 <= j < |now| && i != j
        && now[i].side == Buy && Working(now[i].status) && Working(now[j].status)
        ensures !Similar(now[i], now[j])
      {
        if Similar(now[i], now[j]) {
          var other := if i == id then j else i;
          assert Similar(s.orders[i], s.orders[j]);
          assert i == id || j == id ==> Similar(s.orders[id], s.orders[other]) && IsOpen(s.orders[other].status);
        }
      }
    }
  }

  lemma SubmitKeepsOneBuy(broker: Broker, s: Store, id: nat, quote: Quote, reply: Reply)
    requires OneWorkingBuy(s.orders) && id < |s.orders| && SubmitVia(broker, s, id, quote, reply).Ok?
    ensures OneWorkingBuy(SubmitVia(broker, s, id, quote, reply).value.0.orders)
  {
    match broker
    case UseSim(cfg) =>
      SubmitChangesRow(cfg, s, id, quote);
      RowKeepsOneBuy(s.orders, id, Submit(cfg, s, id, quote).value.0.orders[id]);
    case UseLongbridge(cfg) =>
      if s.orders[id].status == RiskApproved {
        LbSubmitRow(cfg, s, id, reply);
        RowKeepsOneBuy(s.orders, id, LbSubmit(cfg, s, id, reply).value.0.orders[id]);
      }
  }

  lemma ChildKeepsOneBuy(broker: Broker, s: Store, parent: Intent, orderType: OrderType,
                         price: Option<real>, reply: Reply, now: int)
    requires OneWorkingBuy(s.orders)
    requires SubmitChild(broker, s, parent, orderType, price, reply, now).Ok?
    ensures OneWorkingBuy(SubmitChild(broker, s, parent, orderType, price, reply, now).value.0.orders)
  {
    if parent.side == Buy && Wanted(price) {
      var intent := parent.(side := Sell, orderType := orderType, limitPrice := price);
      CreateKeepsOneBuy(s, intent, now);
      var (created, id) := CreateOrder(s, intent, now);
      var approved := Transition(created, id, RiskApproved, BracketAutoApproved).value;
      RowKeepsOneBuy(created.orders, id, approved.orders[id]);
      SubmitKeepsOneBuy(broker, approved, id, FlatQuote(intent.symbol, price.value), reply);
    }
  }

  lemma MainKeepsOneBuy(broker: Broker, risk: RiskConfig, s: Store, req: Request, intent: Intent)
    requires OneWorkingBuy(s.orders) && SubmitMain(broker, risk, s, req, intent).Ok?
    ensures OneWorkingBuy(SubmitMain(broker, risk, s, req, intent).value.0.orders)
  {
    var quote := FlatQuote(intent.symbol, intent.limitPrice.value);
    var ctx := Context(Some(quote), req.marketOpen, req.now);
    CreateKeepsOneBuy(s, intent, req.now);
    var (created, id) := CreateOrder(s, intent, req.now);
    RiskKeepsOneBuy(risk, created, id, ctx);
    SubmitKeepsOneBuy(broker, RunRiskCheck(risk, created, id, ctx).value, id, quote, req.mainReply);
  }

  lemma ExecuteKeepsOneBuy(broker: Broker, risk: RiskConfig, s: Store, req: Request)
    requires OneWorkingBuy(s.orders) && Execute(broker, risk, s, req).Ok?
    ensures OneWorkingBuy(Execute(broker, risk, s, req).value.0.orders)
  {
    var p := req.proposal;
    if TraceIndex(s, req.trace, req.strategy, p.symbol, 0) == |s.orders| {
      var signalled := s.(signals := s.signals + [Signal(req.trace, req.strategy, p.symbol)]);
      var intent := MainIntent(req, |s.signals|);
      MainKeepsOneBuy(broker, risk, signalled, req, intent);
      var main := SubmitMain(broker, risk, signalled, req, intent).value.0;
      ChildKeepsOneBuy(broker, main, intent, LimitIfTouched, p.takeProfit, req.profitReply, req.now);
      var profit := SubmitChild(broker, main, intent, LimitIfTouched, p.takeProfit, req.profitReply, req.now).value.0;
      ChildKeepsOneBuy(broker, profit, intent, StopLimit, p.stopLoss, req.lossReply, req.now);
    }
  }

  /** Rows that were working may change, the others may not. */
  lemma WorkingRowsKeepOneBuy(orders: seq<Order>, now: seq<Order>)
    requires OneWorkingBuy(orders) && KeepsOrders(orders, now) && |now| == |orders|
    requires forall k :: 0 <= k < |orders| ==> Working(orders[k].status) || now[k] == orders[k]
    ensures OneWorkingBuy(now)
  {
    forall i, j | 0 <= i < |now| && 0 <= j < |now| && i != j
      && now[i].side == Buy && Working(now[i].status) && Working(now[j].status)
      ensures !Similar(now[i], now[j])
    {
      assert SameRequest(orders[i], now[i]) && SameRequest(orders[j], now[j]);
    }
  }

  lemma QuoteKeepsOneBuy(cfg: SimConfig, s: Store, quote: Quote, rows: seq<nat>)
    requires BookOk(s) && OneWorkingBuy(s.orders) && RestingRows(s.orders, quote.symbol, rows)
    requires MatchRows(cfg, s, quote, rows).Ok?
    ensures OneWorkingBuy(MatchRows(cfg, s, quote, rows).value.orders)
  {
    MatchRowsKeepsBook(cfg, s, quote, rows);
    MatchRowsGrows(cfg, s, quote, rows);
    WorkingRowsKeepOneBuy(s.orders, MatchRows(cfg, s, quote, rows).value.orders);
  }

  // ---- the one way round the gate -------------------------------------------------------------

  /** The push sets a buy to work again beside a similar order that is working. */
  ghost predicate Revives(s: Store, brokerId: Option<BrokerId>, target: Option<OrderStatus>) {
    var key := if brokerId.Some? then brokerId.value else ExternalId("None");
    var id := BrokerIdIndex(s.orders, key);
    && id < |s.orders| && target.Some? && Push(s, brokerId, target).Ok?
    && s.orders[id].side == Buy && !Working(s.orders[id].status) && Working(target.value)
    && exists k :: 0 <= k < |s.orders| && k != id && Working(s.orders[k].status) && Similar(s.orders[id], s.orders[k])
  }

  /** A buy that starts working keeps the buys apart exactly when none like it works. */
  lemma NewWorkerIff(orders: seq<Order>, id: nat, o: Order)
    requires OneWorkingBuy(orders) && id < |orders| && SameRequest(orders[id], o)
    requires o.side == Buy && Working(o.status)
    ensures OneWorkingBuy(orders[id := o])
            <==> !exists k ::
                   0 <= k < |orders| && k != id && Working(orders[k].status) && Similar(orders[id], orders[k])
  {
    var now := orders[id := o];
    if k :| 0 <= k < |orders| && k != id && Working(orders[k].status) && Similar(orders[id], orders[k]) {
      assert now[id] == o && now[k] == orders[k] && Similar(now[id], now[k]);
    } else {
      forall i, j | 0 <= i < |now| && 0 <= j < |now| && i != j
        && now[i].side == Buy && Working(now[i].status) && Working(now[j].status)
        ensures !Similar(now[i], now[j])
      {
        var other := if i == id then j else i;
        assert i == id || j == id ==> !(Working(orders[other].status) && Similar(orders[id], orders[other]));
        assert i != id && j != id ==> !Similar(orders[i], orders[j]);
      }
    }
  }

  lemma PushKeepsOneBuyIff(s: Store, brokerId: Option<BrokerId>, target: Option<OrderStatus>)
    requires OneWorkingBuy(s.orders) && Push(s, brokerId, target).Ok?
    ensures OneWorkingBuy(Push(s, brokerId, target).value.orders) <==> !Revives(s, brokerId, target)
  {
    var key := if brokerId.Some? then brokerId.value else ExternalId("None");
    var id := BrokerIdIndex(s.orders, key);
    if id < |s.orders| && target.Some? && target.value != s.orders[id].status {
      var o := s.orders[id].(status := target.value);
      assert Push(s, brokerId, target).value.orders == s.orders[id := o];
      if o.side == Buy && Working(o.status) && !Working(s.orders[id].status) {
        NewWorkerIff(s.orders, id, o);
      } else {
        RowKeepsOneBuy(s.orders, id, o);
      }
    }
  }

  lemma CallKeepsOneBuy(cfg: Config, s: Store, step: Step)
    requires BookOk(s) && OneWorkingBuy(s.orders) && Enabled(cfg, s, step) && !step.StepPush?
    requires Call(cfg, s, step).Ok?
    ensures OneWorkingBuy(Call(cfg, s, step).value.orders)
  {
    match step
    case StepCreate(intent, now) => CreateKeepsOneBuy(s, intent, now);
    case StepRisk(id, ctx) => RiskKeepsOneBuy(cfg.risk, s, id, ctx);
    case StepBracket(id) => RowKeepsOneBuy(s.orders, id, s.orders[id].(status := RiskApproved));
    case StepSimSubmit(id, quote) => SubmitKeepsOneBuy(UseSim(cfg.sim), s, id, quote, Unreachable);
    case StepSimCancel(id) =>
      if s.orders[id].status == Submitted {
        CancelShape(cfg.sim, s, id);
        RowKeepsOneBuy(s.orders, id, s.orders[id].(status := Cancelled));
      }
    case StepSimQuote(quote, rows) => QuoteKeepsOneBuy(cfg.sim, s, quote, rows);
    case StepLbSubmit(id, reply) =>
      SubmitKeepsOneBuy(UseLongbridge(cfg.lb), s, id, FlatQuote(s.orders[id].symbol, 1.0), reply);
    case StepLbCancel(id, reply) =>
      RowKeepsOneBuy(s.orders, id, LbCancel(s, id, reply).value.0.orders[id]);
    case StepExecute(broker, req) => ExecuteKeepsOneBuy(broker, cfg.risk, s, req);
  }

  lemma StepKeepsOneBuyIff(cfg: Config, s: Store, step: Step)
    requires BookOk(s) && OneWorkingBuy(s.orders) && Enabled(cfg, s, step)
    ensures OneWorkingBuy(Apply(cfg, s, step).orders)
            <==> !(step.StepPush? && Revives(s, step.brokerId, step.target))
  {
    if Call(cfg, s, step).Ok? {
      if step.StepPush? {
        PushKeepsOneBuyIff(s, step.brokerId, step.target);
      } else {
        CallKeepsOneBuy(cfg, s, step);
      }
    }
  }

  ghost predicate NoneRevived(states: seq<Store>, steps: seq<Step>, i: nat)
    requires i <= |steps| <= |states|
  {
    forall j :: 0 <= j < i ==> !(steps[j].StepPush? && Revives(states[j], steps[j].brokerId, steps[j].target))
  }

  ghost predicate AlwaysOneBuy(states: seq<Store>, i: nat)
    requires i < |states|
  {
    forall j :: 0 <= j <= i ==> OneWorkingBuy(states[j].orders)
  }

  /** On every run, with either broker: an account works at most one buy per symbol in
      every state so far, exactly as long as no push has revived a buy beside one. */
  lemma {:induction false} OneWorkingBuyIff(cfg: Config, states: seq<Store>, steps: seq<Step>, i: nat)
    requires IsRun(cfg, states, steps) && IsOpening(states[0]) && i < |states|
    ensures AlwaysOneBuy(states, i) <==> NoneRevived(states, steps, i)
  {
    if i > 0 {
      OneWorkingBuyIff(cfg, states, steps, i - 1);
      if AlwaysOneBuy(states, i - 1) {
        RunStepOneBuy(cfg, states, steps, i - 1);
      }
    }
  }

  lemma RunStepOneBuy(cfg: Config, states: seq<Store>, steps: seq<Step>, i: nat)
    requires IsRun(cfg, states, steps) && IsOpening(states[0]) && i < |steps| && OneWorkingBuy(states[i].orders)
    ensures OneWorkingBuy(states[i + 1].orders)
            <==> !(steps[i].StepPush? && Revives(states[i], steps[i].brokerId, steps[i].target))
  {
    assert Enabled(cfg, states[i], steps[i]) && states[i + 1] == Apply(cfg, states[i], steps[i]);
    OpeningHasBook(states[0]);
    RunKeepsBook(cfg, states, steps, i);
    StepKeepsOneBuyIff(cfg, states[i], steps[i]);
  }

  /** In every state of every local run an account works at most one buy per symbol. */
  lemma OneWorkingBuyTheorem(cfg: Config, states: seq<Store>, steps: seq<Step>, i: nat)
    requires IsLocalRun(cfg, states, steps) && IsOpening(states[0]) && i < |states|
    ensures OneWorkingBuy(states[i].orders)
  {
    OneWorkingBuyIff(cfg, states, steps, i);
    forall j | 0 <= j < i
      ensures !steps[j].StepPush?
    {
      assert IsLocal(cfg, steps[j]);
    }
  }

  // ---- approval the broker can honour ------------------------------------------------------

  /** The estimate of an order without a limit is what its fill would be worth now, and that
      of a buy with a limit no less. */
  lemma EstimateCoversFill(o: Order, quote: Quote)
    requires o.quantity >= 0.0 && FillPrice(o, quote).Some?
    ensures
      var fill := Amount(o.quantity, FillPrice(o, quote).value);
      && (o.limitPrice.None? ==> EstimatedValue(o, Some(quote)) == fill)
      && (o.limitPrice.Some? && o.side == Buy && o.orderType != Market ==> EstimatedValue(o, Some(quote)) >= fill)
  {
    if o.limitPrice.Some? && o.side == Buy && o.orderType != Market {
      ProductNonNegative(o.quantity, o.limitPrice.value - Ask(quote));
    }
  }

  /** Without commission, an order approved against a quote can be reserved against
      the same quote: the risk engine's estimate is the broker's reservation. */
  lemma ApprovalIsReservable(cfg: SimConfig, risk: RiskConfig, s: Store, id: nat, ctx: Context)
    requires id < |s.orders| && ctx.quote.Some? && ValidQuote(ctx.quote.value)
    requires cfg.commissionRate == 0.0 && s.orders[id].quantity > 0.0
    requires Check(risk, s, id, ctx) == Approved
    ensures
      var checked := RunRiskCheck(risk, s, id, ctx);
      checked.Ok? ==> Reserve(cfg, checked.value, id, ctx.quote.value).Reserved?
  {
    var o := s.orders[id];
    assert o.side == Sell ==> Held(s.positions, o.accountId, o.symbol).availableQuantity >= o.quantity;
  }
}
