/** Frozen cash on runs that mix the two brokers: the paper broker unfreezes for any
    submitted order it fills or cancels, whoever holds it. */
module Mixed {
  import opened Domain
  import opened Sums
  import opened Tables
  import opened Pricing
  import opened OrderService
  import opened Risk
  import opened LocalSim
  import opened Longbridge
  import opened Executor
  import opened Runs
  import opened Book
  import opened Cash
  import opened RowOrder
  import opened Execution
  import opened Solvency

  predicate IsPaper(o: Order) {
    o.brokerOrderId.Some? && o.brokerOrderId.value.LocalSimId?
  }

  /** What a buy that rests with the paper broker has frozen. */
  function Holds(cfg: SimConfig, a: AccountId): Order -> real {
    (o: Order) =>
      if o.status == Submitted && o.side == Buy && IsPaper(o) && o.accountId == a then
        CostAt(cfg, o.quantity, Or(o.limitPrice, 0.0))
      else 0.0
  }

  function HoldGap(cfg: SimConfig, s: Store, a: AccountId): real
    requires a in s.accounts
  {
    s.accounts[a].cashFrozen - Sum(Holds(cfg, a), s.orders)
  }

  /** A valid request; once with the paper broker and not filled, one with a limit. */
  predicate RowFine(o: Order) {
    && o.quantity > 0.0 && (o.limitPrice.Some? ==> o.limitPrice.value > 0.0)
    && (o.orderType != Market ==> o.limitPrice.Some?)
    && (IsPaper(o) && o.status != Filled ==> o.limitPrice.Some?)
  }

  ghost predicate RowsFine(orders: seq<Order>) {
    forall k :: 0 <= k < |orders| ==> RowFine(orders[k])
  }

  /** Rows stay fine and the gap moves by `x`. */
  ghost predicate Shifts(cfg: SimConfig, s: Store, s': Store, a: AccountId, x: real)
    requires a in s.accounts
  {
    RowsFine(s'.orders) && a in s'.accounts && HoldGap(cfg, s', a) == HoldGap(cfg, s, a) + x
  }

  // ---- rows that change alone ----------------------------------------------------------------------

  /** One row changes, and no frozen cash. */
  lemma RowShifts(cfg: SimConfig, s: Store, s': Store, id: nat, a: AccountId)
    requires RowsFine(s.orders) && a in s.accounts && a in s'.accounts
    requires s'.accounts[a].cashFrozen == s.accounts[a].cashFrozen
    requires id < |s.orders| == |s'.orders| && s'.orders == s.orders[id := s'.orders[id]] && RowFine(s'.orders[id])
    ensures Shifts(cfg, s, s', a, Holds(cfg, a)(s.orders[id]) - Holds(cfg, a)(s'.orders[id]))
  {
    SumUpdate(Holds(cfg, a), s.orders, id, s'.orders[id]);
  }

  lemma CreateShifts(cfg: SimConfig, s: Store, intent: Intent, now: int, a: AccountId)
    requires RowsFine(s.orders) && a in s.accounts && ValidIntent(intent)
    ensures Shifts(cfg, s, CreateOrder(s, intent, now).0, a, 0.0)
  {
    CreatedFine(s, intent, now);
    SumAppend(Holds(cfg, a), s.orders, NewOrder(intent, now));
  }

  lemma CreatedFine(s: Store, intent: Intent, now: int)
    requires RowsFine(s.orders) && ValidIntent(intent)
    ensures RowsFine(CreateOrder(s, intent, now).0.orders)
  {
    assert RowFine(NewOrder(intent, now));
  }

  lemma RiskShifts(cfg: SimConfig, risk: RiskConfig, s: Store, id: nat, ctx: Context, a: AccountId)
    requires RowsFine(s.orders) && a in s.accounts && id < |s.orders|
    requires (ctx.quote.Some? ==> ValidQuote(ctx.quote.value)) && RunRiskCheck(risk, s, id, ctx).Ok?
    ensures Shifts(cfg, s, RunRiskCheck(risk, s, id, ctx).value, a, 0.0)
  {
    CheckedRow(risk, s, id, ctx);
    RowShifts(cfg, s, RunRiskCheck(risk, s, id, ctx).value, id, a);
  }

  lemma ApproveShifts(cfg: SimConfig, s: Store, id: nat, a: AccountId)
    requires RowsFine(s.orders) && a in s.accounts && id < |s.orders|
    requires Transition(s, id, RiskApproved, BracketAutoApproved).Ok?
    ensures Shifts(cfg, s, Transition(s, id, RiskApproved, BracketAutoApproved).value, a, 0.0)
  {
    RowShifts(cfg, s, Transition(s, id, RiskApproved, BracketAutoApproved).value, id, a);
  }

  lemma LbSubmitShifts(cfg: SimConfig, lb: LbConfig, s: Store, id: nat, reply: Reply, a: AccountId)
    requires RowsFine(s.orders) && a in s.accounts && id < |s.orders| && LbSubmit(lb, s, id, reply).Ok?
    ensures Shifts(cfg, s, LbSubmit(lb, s, id, reply).value.0, a, 0.0)
  {
    var s' := LbSubmit(lb, s, id, reply).value.0;
    if s.orders[id].status == RiskApproved {
      RowShifts(cfg, s, s', id, a);
    }
  }

  lemma LbCancelShifts(cfg: SimConfig, s: Store, id: nat, reply: Reply, a: AccountId)
    requires RowsFine(s.orders) && a in s.accounts && id < |s.orders| && LbCancel(s, id, reply).Ok?
    ensures Shifts(cfg, s, LbCancel(s, id, reply).value.0, a, LbCancelCross(cfg, s, id, a))
  {
    RowShifts(cfg, s, LbCancel(s, id, reply).value.0, id, a);
  }

  /** What a cancellation through the external broker leaves frozen for good. */
  function LbCancelCross(cfg: SimConfig, s: Store, id: nat, a: AccountId): real
    requires id < |s.orders|
  {
    Holds(cfg, a)(s.orders[id])
  }

  function PushCross(cfg: SimConfig, s: Store, brokerId: Option<BrokerId>, target: Option<OrderStatus>, a: AccountId)
    : real
  {
    var key := if brokerId.Some? then brokerId.value else ExternalId("None");
    var id := BrokerIdIndex(s.orders, key);
    if id == |s.orders| || target.None? then 0.0
    else Holds(cfg, a)(s.orders[id]) - Holds(cfg, a)(s.orders[id].(status := target.value))
  }

  lemma PushShifts(cfg: SimConfig, s: Store, brokerId: Option<BrokerId>, target: Option<OrderStatus>, a: AccountId)
    requires RowsFine(s.orders) && a in s.accounts && Push(s, brokerId, target).Ok?
    ensures Shifts(cfg, s, Push(s, brokerId, target).value, a, PushCross(cfg, s, brokerId, target, a))
  {
    var key := if brokerId.Some? then brokerId.value else ExternalId("None");
    var id := BrokerIdIndex(s.orders, key);
    if id < |s.orders| && target.Some? && target.value != s.orders[id].status {
      RowShifts(cfg, s, Push(s, brokerId, target).value, id, a);
    }
  }

  // ---- the paper broker --------------------------------------------------------------------------------

  /** What a fill or cancellation by the paper broker unfreezes for an order that it
      does not hold. */
  function FillCross(cfg: SimConfig, o: Order, price: real, a: AccountId): real {
    if o.side == Buy && o.accountId == a && !IsPaper(o) then -CostAt(cfg, o.quantity, Or(o.limitPrice, price)) else 0.0
  }

  lemma FillShifts(cfg: SimConfig, s: Store, id: nat, price: real, a: AccountId)
    requires RowsFine(s.orders) && a in s.accounts && id < |s.orders|
    requires s.orders[id].status == Submitted && s.orders[id].accountId in s.accounts
    ensures ApplyFill(cfg, s, id, price).Ok?
    ensures Shifts(cfg, s, ApplyFill(cfg, s, id, price).value, a, FillCross(cfg, s.orders[id], price, a))
  {
    FillShape(cfg, s, id, price);
    SettleCash(cfg, s, id, price, a);
    SumUpdate(Holds(cfg, a), s.orders, id, FilledRow(s.orders[id], price));
    assert RowFine(s.orders[id]);
  }

  function MatchCross(cfg: SimConfig, quote: Quote, a: AccountId): Order -> real {
    (o: Order) => if FillPrice(o, quote).Some? then FillCross(cfg, o, FillPrice(o, quote).value, a) else 0.0
  }

  lemma MatchShifts(cfg: SimConfig, s: Store, id: nat, quote: Quote, a: AccountId)
    requires RowsFine(s.orders) && a in s.accounts && id < |s.orders| && s.orders[id].status == Submitted
    requires Match(cfg, s, id, quote).Ok?
    ensures Shifts(cfg, s, Match(cfg, s, id, quote).value, a, MatchCross(cfg, quote, a)(s.orders[id]))
  {
    var price := FillPrice(s.orders[id], quote);
    if price.Some? {
      FillShifts(cfg, s, id, price.value, a);
    }
  }

  lemma {:induction false} RowsShift(cfg: SimConfig, s: Store, quote: Quote, rows: seq<nat>, a: AccountId)
    requires BookOk(s) && RowsFine(s.orders) && a in s.accounts && SomeRows(s.orders, quote.symbol, rows)
    requires MatchRows(cfg, s, quote, rows).Ok?
    ensures Shifts(cfg, s, MatchRows(cfg, s, quote, rows).value, a, RowSum(MatchCross(cfg, quote, a), s.orders, rows))
  {
    if rows != [] {
      var last := |rows| - 1;
      RowsShift(cfg, s, quote, rows[..last], a);
      MatchRowsKeepsBook(cfg, s, quote, rows[..last]);
      var before := MatchRows(cfg, s, quote, rows[..last]).value;
      assert before.orders[rows[last]] == s.orders[rows[last]];
      MatchShifts(cfg, before, rows[last], quote, a);
    }
  }

  lemma CancelShifts(cfg: SimConfig, s: Store, id: nat, a: AccountId)
    requires RowsFine(s.orders) && a in s.accounts && id < |s.orders| && Cancel(cfg, s, id).Ok?
    requires s.orders[id].status == Submitted
    ensures Shifts(cfg, s, Cancel(cfg, s, id).value.0, a, FillCross(cfg, s.orders[id], 0.0, a))
  {
    CancelShape(cfg, s, id);
    var o := s.orders[id];
    assert RowFine(o);
    CancelFrozen(cfg, s, id, a);
    SumUpdate(Holds(cfg, a), s.orders, id, o.(status := Cancelled));
  }

  lemma CancelFrozen(cfg: SimConfig, s: Store, id: nat, a: AccountId)
    requires a in s.accounts && id < |s.orders| && s.orders[id].status == Submitted && Cancel(cfg, s, id).Ok?
    ensures
      var o, s' := s.orders[id], Cancel(cfg, s, id).value.0;
      && a in s'.accounts
      && s'.accounts[a].cashFrozen == s.accounts[a].cashFrozen
           - (if a == o.accountId && o.side == Buy then CostAt(cfg, o.quantity, Or(o.limitPrice, 0.0)) else 0.0)
  {
    CancelShape(cfg, s, id);
  }

  lemma AcceptShifts(cfg: SimConfig, s: Store, id: nat, quote: Quote, a: AccountId)
    requires RowsFine(s.orders) && a in s.accounts && id < |s.orders| && s.orders[id].status == RiskApproved
    requires Reserve(cfg, s, id, quote).Reserved? && FillPrice(s.orders[id], quote).None?
    ensures Shifts(cfg, s, Accepted(cfg, s, id, quote), a, 0.0)
  {
    AcceptedShape(cfg, s, id, quote);
    AcceptShape(Reserve(cfg, s, id, quote).store, id);
    ReserveCash(cfg, s, id, quote, a);
    assert RowFine(s.orders[id]);
    SumUpdate(Holds(cfg, a), s.orders, id, AcceptedRow(s.orders[id], id));
  }

  /** Accepted and filled at once: what was frozen is unfrozen again. */
  lemma AcceptAndFillShifts(cfg: SimConfig, s: Store, id: nat, quote: Quote, a: AccountId)
    requires RowsFine(s.orders) && a in s.accounts && id < |s.orders| && s.orders[id].status == RiskApproved
    requires Reserve(cfg, s, id, quote).Reserved? && FillPrice(s.orders[id], quote).Some?
    ensures
      var r := ApplyFill(cfg, Accepted(cfg, s, id, quote), id, FillPrice(s.orders[id], quote).value);
      r.Ok? && Shifts(cfg, s, r.value, a, 0.0)
  {
    AcceptAndFillFrozen(cfg, s, id, quote, a);
    AcceptedShape(cfg, s, id, quote);
    var o, price := s.orders[id], FillPrice(s.orders[id], quote).value;
    FillShape(cfg, Accepted(cfg, s, id, quote), id, price);
    assert RowFine(o);
    RowShifts(cfg, s, ApplyFill(cfg, Accepted(cfg, s, id, quote), id, price).value, id, a);
  }

  lemma AcceptAndFillFrozen(cfg: SimConfig, s: Store, id: nat, quote: Quote, a: AccountId)
    requires a in s.accounts && id < |s.orders| && s.orders[id].status == RiskApproved
    requires Reserve(cfg, s, id, quote).Reserved? && FillPrice(s.orders[id], quote).Some?
    ensures
      var r := ApplyFill(cfg, Accepted(cfg, s, id, quote), id, FillPrice(s.orders[id], quote).value);
      r.Ok? && a in r.value.accounts && r.value.accounts[a].cashFrozen == s.accounts[a].cashFrozen
  {
    AcceptedShape(cfg, s, id, quote);
    AcceptedFrozen(cfg, s, id, quote, a);
    var accepted, price := Accepted(cfg, s, id, quote), FillPrice(s.orders[id], quote).value;
    FillShape(cfg, accepted, id, price);
    SettleCash(cfg, accepted, id, price, a);
    TradePrice(s.orders[id], quote);
  }

  lemma AcceptedFrozen(cfg: SimConfig, s: Store, id: nat, quote: Quote, a: AccountId)
    requires a in s.accounts && id < |s.orders| && s.orders[id].status == RiskApproved
    requires Reserve(cfg, s, id, quote).Reserved?
    ensures
      var o, accepted := s.orders[id], Accepted(cfg, s, id, quote);
      && a in accepted.accounts
      && accepted.accounts[a].cashFrozen == s.accounts[a].cashFrozen
           + (if a == o.accountId && o.side == Buy then CostAt(cfg, o.quantity, Or(o.limitPrice, Ask(quote))) else 0.0)
  {
    AcceptShape(Reserve(cfg, s, id, quote).store, id);
    ReserveCash(cfg, s, id, quote, a);
  }

  lemma SubmitShifts(cfg: SimConfig, s: Store, id: nat, quote: Quote, a: AccountId)
    requires RowsFine(s.orders) && a in s.accounts && id < |s.orders| && Submit(cfg, s, id, quote).Ok?
    ensures Shifts(cfg, s, Submit(cfg, s, id, quote).value.0, a, 0.0)
  {
    SubmitShape(cfg, s, id, quote);
    var o := s.orders[id];
    if o.status == RiskApproved {
      if quote.symbol != o.symbol || Reserve(cfg, s, id, quote).Refused? {
        RowShifts(cfg, s, Submit(cfg, s, id, quote).value.0, id, a);
      } else if FillPrice(o, quote).None? {
        AcceptShifts(cfg, s, id, quote, a);
      } else {
        AcceptAndFillShifts(cfg, s, id, quote, a);
      }
    }
  }

  // ---- the executor ---------------------------------------------------------------------------------------

  lemma SubmitViaShifts(cfg: SimConfig, broker: Broker, s: Store, id: nat, quote: Quote, reply: Reply, a: AccountId)
    requires broker.UseSim? ==> broker.sim == cfg
    requires RowsFine(s.orders) && a in s.accounts && id < |s.orders| && SubmitVia(broker, s, id, quote, reply).Ok?
    ensures Shifts(cfg, s, SubmitVia(broker, s, id, quote, reply).value.0, a, 0.0)
  {
    match broker
    case UseSim(sim) => SubmitShifts(cfg, s, id, quote, a);
    case UseLongbridge(lb) => LbSubmitShifts(cfg, lb, s, id, reply, a);
  }

  lemma MainShifts(cfg: SimConfig, broker: Broker, risk: RiskConfig, s: Store, req: Request, intent: Intent,
      a: AccountId)
    requires broker.UseSim? ==> broker.sim == cfg
    requires RowsFine(s.orders) && a in s.accounts && SubmitMain(broker, risk, s, req, intent).Ok?
    ensures Shifts(cfg, s, SubmitMain(broker, risk, s, req, intent).value.0, a, 0.0)
  {
    var quote := FlatQuote(intent.symbol, intent.limitPrice.value);
    var ctx := Context(Some(quote), req.marketOpen, req.now);
    CreateShifts(cfg, s, intent, req.now, a);
    var (created, id) := CreateOrder(s, intent, req.now);
    RiskShifts(cfg, risk, created, id, ctx, a);
    SubmitViaShifts(cfg, broker, RunRiskCheck(risk, created, id, ctx).value, id, quote, req.mainReply, a);
  }

  lemma ChildShifts(cfg: SimConfig, broker: Broker, s: Store, parent: Intent, orderType: OrderType,
                    price: Option<real>, reply: Reply, now: int, a: AccountId)
    requires broker.UseSim? ==> broker.sim == cfg
    requires RowsFine(s.orders) && a in s.accounts
    requires SubmitChild(broker, s, parent, orderType, price, reply, now).Ok?
    ensures Shifts(cfg, s, SubmitChild(broker, s, parent, orderType, price, reply, now).value.0, a, 0.0)
  {
    if parent.side == Buy && Wanted(price) {
      var intent := parent.(side := Sell, orderType := orderType, limitPrice := price);
      CreateShifts(cfg, s, intent, now, a);
      var (created, id) := CreateOrder(s, intent, now);
      ApproveShifts(cfg, created, id, a);
      var approved := Transition(created, id, RiskApproved, BracketAutoApproved).value;
      SubmitViaShifts(cfg, broker, approved, id, FlatQuote(intent.symbol, price.value), reply, a);
    }
  }

  lemma ExecuteShifts(cfg: SimConfig, broker: Broker, risk: RiskConfig, s: Store, req: Request, a: AccountId)
    requires broker.UseSim? ==> broker.sim == cfg
    requires RowsFine(s.orders) && a in s.accounts && Execute(broker, risk, s, req).Ok?
    ensures Shifts(cfg, s, Execute(broker, risk, s, req).value.0, a, 0.0)
  {
    var p := req.proposal;
    if TraceIndex(s, req.trace, req.strategy, p.symbol, 0) == |s.orders| {
      var signalled := s.(signals := s.signals + [Signal(req.trace, req.strategy, p.symbol)]);
      var intent := MainIntent(req, |s.signals|);
      MainShifts(cfg, broker, risk, signalled, req, intent, a);
      var main := SubmitMain(broker, risk, signalled, req, intent).value.0;
      ChildShifts(cfg, broker, main, intent, LimitIfTouched, p.takeProfit, req.profitReply, req.now, a);
      var profit := SubmitChild(broker, main, intent, LimitIfTouched, p.takeProfit, req.profitReply, req.now).value.0;
      ChildShifts(cfg, broker, profit, intent, StopLimit, p.stopLoss, req.lossReply, req.now, a);
    }
  }

  // ---- every step, every run -----------------------------------------------------------------------------

  /** What a step does to the frozen cash that no resting paper buy accounts for. */
  function StepCross(cfg: Config, s: Store, step: Step, a: AccountId): real
    requires Enabled(cfg, s, step)
  {
    if Call(cfg, s, step).Raised? then 0.0
    else
      match step
      case StepSimCancel(id) => if s.orders[id].status == Submitted then FillCross(cfg.sim, s.orders[id], 0.0, a)
        else 0.0
      case StepSimQuote(quote, rows) => RowSum(MatchCross(cfg.sim, quote, a), s.orders, rows)
      case StepLbCancel(id, _) => LbCancelCross(cfg.sim, s, id, a)
      case StepPush(brokerId, target) => PushCross(cfg.sim, s, brokerId, target, a)
      case _ => 0.0
  }

  lemma StepShifts(cfg: Config, s: Store, step: Step, a: AccountId)
    requires BookOk(s) && RowsFine(s.orders) && a in s.accounts && Enabled(cfg, s, step)
    ensures Shifts(cfg.sim, s, Apply(cfg, s, step), a, StepCross(cfg, s, step, a))
  {
    if Call(cfg, s, step).Ok? {
      match step
      case StepCreate(intent, now) => CreateShifts(cfg.sim, s, intent, now, a);
      case StepRisk(id, ctx) => RiskShifts(cfg.sim, cfg.risk, s, id, ctx, a);
      case StepBracket(id) => ApproveShifts(cfg.sim, s, id, a);
      case StepSimSubmit(id, quote) => SubmitShifts(cfg.sim, s, id, quote, a);
      case StepSimCancel(id) =>
        if s.orders[id].status == Submitted {
          CancelShifts(cfg.sim, s, id, a);
        }
      case StepSimQuote(quote, rows) => RowsShift(cfg.sim, s, quote, rows, a);
      case StepLbSubmit(id, reply) => LbSubmitShifts(cfg.sim, cfg.lb, s, id, reply, a);
      case StepLbCancel(id, reply) => LbCancelShifts(cfg.sim, s, id, reply, a);
      case StepPush(brokerId, target) => PushShifts(cfg.sim, s, brokerId, target, a);
      case StepExecute(broker, req) => ExecuteShifts(cfg.sim, broker, cfg.risk, s, req, a);
    }
  }

  /** What the first `i` steps of a run did to it. */
  ghost function Crossed(cfg: Config, states: seq<Store>, steps: seq<Step>, i: nat, a: AccountId): real
    requires IsRun(cfg, states, steps) && i <= |steps|
  {
    if i == 0 then 0.0
    else Crossed(cfg, states, steps, i - 1, a) + StepCross(cfg, states[i - 1], steps[i - 1], a)
  }

  lemma RunStepShifts(cfg: Config, states: seq<Store>, steps: seq<Step>, i: nat, a: AccountId)
    requires IsRun(cfg, states, steps) && IsOpening(states[0]) && i < |steps|
    requires RowsFine(states[i].orders) && a in states[i].accounts
    ensures Shifts(cfg.sim, states[i], states[i + 1], a, StepCross(cfg, states[i], steps[i], a))
  {
    assert Enabled(cfg, states[i], steps[i]) && states[i + 1] == Apply(cfg, states[i], steps[i]);
    OpeningHasBook(states[0]);
    RunKeepsBook(cfg, states, steps, i);
    StepShifts(cfg, states[i], steps[i], a);
  }

  /** On every run, whatever the two brokers do: frozen cash is what the resting paper
      buys froze, and what steps of one broker on orders of the other left behind. */
  lemma {:induction false} MixedCashTheorem(cfg: Config, states: seq<Store>, steps: seq<Step>, i: nat, a: AccountId)
    requires IsRun(cfg, states, steps) && IsOpening(states[0]) && i < |states| && a in states[0].accounts
    ensures RowsFine(states[i].orders) && a in states[i].accounts
    ensures states[i].accounts[a].cashFrozen
         == Sum(Holds(cfg.sim, a), states[i].orders) + Crossed(cfg, states, steps, i, a)
  {
    if i > 0 {
      MixedCashTheorem(cfg, states, steps, i - 1, a);
      RunStepShifts(cfg, states, steps, i - 1, a);
    }
  }

  // ---- when nothing is left behind ---------------------------------------------------------------------------

  /** A buy of the account that rests with the paper broker. */
  predicate PaperBuy(o: Order, a: AccountId) {
    o.status == Submitted && o.side == Buy && IsPaper(o) && o.accountId == a
  }

  /** A submitted buy of the account that the paper broker does not hold. */
  predicate ForeignBuy(o: Order, a: AccountId) {
    o.status == Submitted && o.side == Buy && !IsPaper(o) && o.accountId == a
  }

  /** The step of one broker reaches a buy that rests with the other. */
  ghost predicate Crosses(cfg: Config, s: Store, step: Step, a: AccountId)
    requires Enabled(cfg, s, step)
  {
    && Call(cfg, s, step).Ok?
    && match step
       case StepSimCancel(id) => ForeignBuy(s.orders[id], a)
       case StepSimQuote(quote, rows) =>
         exists i :: 0 <= i < |rows| && ForeignBuy(s.orders[rows[i]], a) && FillPrice(s.orders[rows[i]], quote).Some?
       case StepLbCancel(id, _) => PaperBuy(s.orders[id], a)
       case StepPush(brokerId, target) =>
         var key := if brokerId.Some? then brokerId.value else ExternalId("None");
         var id := BrokerIdIndex(s.orders, key);
         && id < |s.orders| && target.Some?
         && (PaperBuy(s.orders[id], a) != PaperBuy(s.orders[id].(status := target.value), a))
       case _ => false
  }

  lemma HoldPositive(cfg: SimConfig, o: Order, a: AccountId)
    requires ValidConfig(cfg) && RowFine(o)
    ensures Holds(cfg, a)(o) >= 0.0 && (Holds(cfg, a)(o) > 0.0 <==> PaperBuy(o, a))
  {
    if PaperBuy(o, a) {
      CostPositive(cfg, o.quantity, o.limitPrice.value);
    }
  }

  lemma ForeignNegative(cfg: SimConfig, o: Order, price: real, a: AccountId)
    requires ValidConfig(cfg) && RowFine(o) && o.status == Submitted && (price > 0.0 || o.limitPrice.Some?)
    ensures FillCross(cfg, o, price, a) <= 0.0 && (FillCross(cfg, o, price, a) < 0.0 <==> ForeignBuy(o, a))
  {
    CostPositive(cfg, o.quantity, Or(o.limitPrice, price));
  }

  lemma CostPositive(cfg: SimConfig, quantity: real, price: real)
    requires ValidConfig(cfg) && quantity > 0.0 && price > 0.0
    ensures CostAt(cfg, quantity, price) > 0.0
  {
    assert Amount(quantity, price) > 0.0;
    CommissionBounds(cfg, Amount(quantity, price));
  }

  /** Some of these rows is a foreign buy that trades. */
  ghost predicate SomeForeign(orders: seq<Order>, quote: Quote, rows: seq<nat>, a: AccountId)
    requires InRange(orders, rows)
  {
    exists i :: 0 <= i < |rows| && ForeignBuy(orders[rows[i]], a) && FillPrice(orders[rows[i]], quote).Some?
  }

  lemma {:induction false} RowsCrossIff(cfg: SimConfig, orders: seq<Order>, quote: Quote, rows: seq<nat>, a: AccountId)
    requires ValidConfig(cfg) && RowsFine(orders) && ValidQuote(quote) && SomeRows(orders, quote.symbol, rows)
    ensures
      var x := RowSum(MatchCross(cfg, quote, a), orders, rows);
      x <= 0.0 && (x < 0.0 <==> SomeForeign(orders, quote, rows, a))
  {
    if rows != [] {
      var last := |rows| - 1;
      RowsCrossIff(cfg, orders, quote, rows[..last], a);
      RowCross(cfg, orders[rows[last]], quote, a);
      assert SomeForeign(orders, quote, rows, a)
        <==> SomeForeign(orders, quote, rows[..last], a)
             || (ForeignBuy(orders[rows[last]], a) && FillPrice(orders[rows[last]], quote).Some?);
    }
  }

  lemma RowCross(cfg: SimConfig, o: Order, quote: Quote, a: AccountId)
    requires ValidConfig(cfg) && RowFine(o) && o.status == Submitted && ValidQuote(quote)
    ensures
      var x := MatchCross(cfg, quote, a)(o);
      x <= 0.0 && (x < 0.0 <==> ForeignBuy(o, a) && FillPrice(o, quote).Some?)
  {
    if FillPrice(o, quote).Some? {
      TradePrice(o, quote);
      ForeignNegative(cfg, o, FillPrice(o, quote).value, a);
    }
  }

  lemma StepCrossIff(cfg: Config, s: Store, step: Step, a: AccountId)
    requires ValidConfig(cfg.sim) && RowsFine(s.orders) && Enabled(cfg, s, step) && a in s.accounts
    ensures StepCross(cfg, s, step, a) != 0.0 <==> Crosses(cfg, s, step, a)
  {
    if Call(cfg, s, step).Ok? {
      match step
      case StepSimCancel(id) =>
        if s.orders[id].status == Submitted {
          CancelledHasLimit(cfg.sim, s, id);
          if s.orders[id].side == Buy {
            ForeignNegative(cfg.sim, s.orders[id], 0.0, a);
          }
        }
      case StepSimQuote(quote, rows) => RowsCrossIff(cfg.sim, s.orders, quote, rows, a);
      case StepLbCancel(id, _) => HoldPositive(cfg.sim, s.orders[id], a);
      case StepPush(brokerId, target) => PushCrossIff(cfg.sim, s, brokerId, target, a);
      case _ =>
    }
  }

  /** The paper broker cancels a buy only if it can tell what was frozen for it. */
  lemma CancelledHasLimit(cfg: SimConfig, s: Store, id: nat)
    requires id < |s.orders| && s.orders[id].status == Submitted && Cancel(cfg, s, id).Ok?
    ensures s.orders[id].side == Buy ==> s.orders[id].limitPrice.Some?
  {
  }

  lemma PushCrossIff(cfg: SimConfig, s: Store, brokerId: Option<BrokerId>, target: Option<OrderStatus>, a: AccountId)
    requires ValidConfig(cfg) && RowsFine(s.orders) && Push(s, brokerId, target).Ok?
    ensures
      var key := if brokerId.Some? then brokerId.value else ExternalId("None");
      var id := BrokerIdIndex(s.orders, key);
      PushCross(cfg, s, brokerId, target, a) != 0.0
      <==> && id < |s.orders| && target.Some?
           && (PaperBuy(s.orders[id], a) != PaperBuy(s.orders[id].(status := target.value), a))
  {
    var key := if brokerId.Some? then brokerId.value else ExternalId("None");
    var id := BrokerIdIndex(s.orders, key);
    if id < |s.orders| && target.Some? && target.value != s.orders[id].status {
      var o := s.orders[id];
      assert o.status != Filled;
      HoldPositive(cfg, o, a);
      HoldPositive(cfg, o.(status := target.value), a);
    }
  }

  ghost predicate IsHeld(cfg: Config, s: Store, a: AccountId) {
    a in s.accounts && s.accounts[a].cashFrozen == Sum(Holds(cfg.sim, a), s.orders)
  }

  lemma HeldNextIff(cfg: Config, states: seq<Store>, steps: seq<Step>, i: nat, a: AccountId)
    requires ValidConfig(cfg.sim) && IsRun(cfg, states, steps) && IsOpening(states[0])
    requires i < |steps| && a in states[0].accounts && IsHeld(cfg, states[i], a)
    ensures IsHeld(cfg, states[i + 1], a) <==> !Crosses(cfg, states[i], steps[i], a)
  {
    MixedCashTheorem(cfg, states, steps, i, a);
    assert Enabled(cfg, states[i], steps[i]);
    RunStepShifts(cfg, states, steps, i, a);
    StepCrossIff(cfg, states[i], steps[i], a);
  }

  ghost predicate AlwaysHeld(cfg: Config, states: seq<Store>, i: nat, a: AccountId)
    requires i < |states|
  {
    forall j :: 0 <= j <= i ==> IsHeld(cfg, states[j], a)
  }

  ghost predicate NoneCrosses(cfg: Config, states: seq<Store>, steps: seq<Step>, i: nat, a: AccountId)
    requires IsRun(cfg, states, steps) && i <= |steps|
  {
    forall j :: 0 <= j < i ==> !Crosses(cfg, states[j], steps[j], a)
  }

  /** Frozen cash is what the resting paper buys froze in every state so far, exactly as
      long as no step of one broker has reached a buy of the account with the other. */
  lemma {:induction false} FrozenIsHeldIff(cfg: Config, states: seq<Store>, steps: seq<Step>, i: nat, a: AccountId)
    requires ValidConfig(cfg.sim) && IsRun(cfg, states, steps) && IsOpening(states[0])
    requires i < |states| && a in states[0].accounts
    ensures AlwaysHeld(cfg, states, i, a) <==> NoneCrosses(cfg, states, steps, i, a)
  {
    if i == 0 {
      MixedCashTheorem(cfg, states, steps, 0, a);
    } else {
      FrozenIsHeldIff(cfg, states, steps, i - 1, a);
      if AlwaysHeld(cfg, states, i - 1, a) {
        HeldNextIff(cfg, states, steps, i - 1, a);
      }
    }
  }
}
