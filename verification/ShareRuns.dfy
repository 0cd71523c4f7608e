/** Theorems over every run of the paper broker without bracket orders, and what
    brackets change. */
module ShareRuns {
  import opened Domain
  import opened Sums
  import opened Tables
  import opened Pricing
  import opened OrderService
  import opened Risk
  import opened LocalSim
  import opened Longbridge
  import opened Executor
  import opened Runs
  import opened Cash
  import opened CashRuns
  import opened Shares

  /** The step asks for no bracket order: nothing is created as a touched or stop
      sale, and no executed buy carries a take-profit or stop-loss price. */
  predicate AsksNoBracket(step: Step) {
    match step
    case StepCreate(intent, now) => !IsBracket(NewOrder(intent, now))
    case StepExecute(_, req) =>
      var p := req.proposal;
      if p.action == BuyAction then !Wanted(p.takeProfit) && !Wanted(p.stopLoss)
      else p.orderType in {Market, Limit}
    case _ => true
  }

  ghost predicate IsPlainRun(cfg: Config, states: seq<Store>, steps: seq<Step>) {
    && IsLocalRun(cfg, states, steps)
    && forall i :: 0 <= i < |steps| ==> AsksNoBracket(steps[i])
  }

  lemma RiskKeepsShares(risk: RiskConfig, s: Store, id: nat, ctx: Context)
    requires AtRest(s) && SharesOk(s) && Valued(s) && id < |s.orders|
    requires ctx.quote.Some? ==> ValidQuote(ctx.quote.value)
    requires RunRiskCheck(risk, s, id, ctx).Ok?
    ensures KeepsShares(s, RunRiskCheck(risk, s, id, ctx).value)
  {
    QuietKeepsShares(s, RunRiskCheck(risk, s, id, ctx).value, id);
  }

  /** Logs, notices and signals do not matter to shares. */
  lemma SameBooksKeepShares(s: Store, s': Store)
    requires SharesOk(s) && Valued(s) && SameBalances(s, s') && s'.orders == s.orders
    ensures KeepsShares(s, s')
  {
    forall a, y
      ensures LockGap(s', a, y) == 0.0 && NetGap(s', a, y) == NetGap(s, a, y)
      ensures Held(s'.positions, a, y).availableQuantity >= 0.0
    {
      assert LockGap(s, a, y) == 0.0;
    }
  }

  lemma MainKeepsShares(cfg: SimConfig, risk: RiskConfig, s: Store, req: Request, intent: Intent)
    requires AtRest(s) && SharesOk(s) && Valued(s) && !IsBracket(NewOrder(intent, req.now))
    requires SubmitMain(UseSim(cfg), risk, s, req, intent).Ok?
    ensures KeepsShares(s, SubmitMain(UseSim(cfg), risk, s, req, intent).value.0)
  {
    MainShape(cfg, risk, s, req, intent);
    var quote := FlatQuote(intent.symbol, intent.limitPrice.value);
    CreateAtRest(cfg, s, intent, req.now);
    CreateKeepsShares(s, intent, req.now);
    var (created, id) := CreateOrder(s, intent, req.now);
    CheckedKeepsShares(cfg, risk, created, id, Context(Some(quote), req.marketOpen, req.now), quote);
  }

  /** What a main order that went through was: created, checked, submitted. */
  lemma MainShape(cfg: SimConfig, risk: RiskConfig, s: Store, req: Request, intent: Intent)
    requires SubmitMain(UseSim(cfg), risk, s, req, intent).Ok?
    ensures ValidIntent(intent) && intent.limitPrice.Some?
    ensures
      var quote := FlatQuote(intent.symbol, intent.limitPrice.value);
      var (created, id) := CreateOrder(s, intent, req.now);
      var checked := RunRiskCheck(risk, created, id, Context(Some(quote), req.marketOpen, req.now));
      && ValidQuote(quote) && checked.Ok? && id < |checked.value.orders| && Submit(cfg, checked.value, id, quote).Ok?
      && SubmitMain(UseSim(cfg), risk, s, req, intent).value.0 == Submit(cfg, checked.value, id, quote).value.0
  {
  }

  lemma CheckedKeepsShares(cfg: SimConfig, risk: RiskConfig, s: Store, id: nat, ctx: Context, quote: Quote)
    requires AtRest(s) && SharesOk(s) && Valued(s) && id < |s.orders|
    requires ValidQuote(quote) && ctx.quote == Some(quote) && RunRiskCheck(risk, s, id, ctx).Ok?
    ensures
      var checked := RunRiskCheck(risk, s, id, ctx).value;
      && id < |checked.orders| && Submit(cfg, checked, id, quote).Ok?
      && KeepsShares(s, Submit(cfg, checked, id, quote).value.0)
  {
    RiskAtRest(cfg, risk, s, id, ctx);
    RiskKeepsShares(risk, s, id, ctx);
    SubmitKeepsShares(cfg, RunRiskCheck(risk, s, id, ctx).value, id, quote);
  }

  lemma ExecuteKeepsShares(cfg: SimConfig, risk: RiskConfig, s: Store, req: Request)
    requires AtRest(s) && SharesOk(s) && Valued(s) && AsksNoBracket(StepExecute(UseSim(cfg), req))
    requires Execute(UseSim(cfg), risk, s, req).Ok?
    ensures KeepsShares(s, Execute(UseSim(cfg), risk, s, req).value.0)
  {
    var p := req.proposal;
    if TraceIndex(s, req.trace, req.strategy, p.symbol, 0) == |s.orders| {
      var signalled := s.(signals := s.signals + [Signal(req.trace, req.strategy, p.symbol)]);
      SameMoneyAtRest(cfg, s, signalled);
      SameBooksKeepShares(s, signalled);
      var intent := MainIntent(req, |s.signals|);
      MainKeepsShares(cfg, risk, signalled, req, intent);
      var (main, id) := SubmitMain(UseSim(cfg), risk, signalled, req, intent).value;
      NoChild(UseSim(cfg), main, intent, LimitIfTouched, p.takeProfit, req.profitReply, req.now);
      NoChild(UseSim(cfg), main, intent, StopLimit, p.stopLoss, req.lossReply, req.now);
      SameBooksKeepShares(main, Record(main, TradeApproved, id));
    }
  }

  lemma NoChild(broker: Broker, s: Store, parent: Intent, orderType: OrderType, price: Option<real>,
                reply: Reply, now: int)
    requires parent.side != Buy || !Wanted(price)
    ensures SubmitChild(broker, s, parent, orderType, price, reply, now) == Ok((s, None))
  {
  }

  lemma StepKeepsShares(cfg: Config, s: Store, step: Step)
    requires AtRest(s) && SharesOk(s) && Valued(s)
    requires Enabled(cfg, s, step) && IsLocal(cfg, step) && AsksNoBracket(step)
    ensures KeepsShares(s, Apply(cfg, s, step))
  {
    if Call(cfg, s, step).Ok? {
      match step
      case StepCreate(intent, now) => CreateKeepsShares(s, intent, now);
      case StepRisk(id, ctx) => RiskKeepsShares(cfg.risk, s, id, ctx);
      case StepBracket(id) =>
      case StepSimSubmit(id, quote) => SubmitKeepsShares(cfg.sim, s, id, quote);
      case StepSimCancel(id) =>
        if s.orders[id].status == Submitted {
          assert RowOk(s, s.orders[id]);
          CancelKeepsShares(cfg.sim, s, id);
        }
      case StepSimQuote(quote, rows) => MatchRowsKeepsShares(cfg.sim, s, quote, rows);
      case StepExecute(broker, req) => ExecuteKeepsShares(cfg.sim, cfg.risk, s, req);
    }
  }

  lemma {:induction false} RunKeepsShares(cfg: Config, states: seq<Store>, steps: seq<Step>, i: nat)
    requires IsPlainRun(cfg, states, steps) && i < |states|
    requires AtRest(states[0]) && SharesOk(states[0]) && Valued(states[0])
    ensures KeepsShares(states[0], states[i])
  {
    if i > 0 {
      RunKeepsShares(cfg, states, steps, i - 1);
      RunKeepsCash(cfg, states, steps, i - 1);
      StepKeepsShares(cfg, states[i - 1], steps[i - 1]);
      assert states[i] == Apply(cfg, states[i - 1], steps[i - 1]);
    }
  }

  lemma OpeningIsInOrder(s: Store)
    requires IsOpening(s)
    ensures AtRest(s) && SharesOk(s) && Valued(s)
    ensures forall a, y :: NetGap(s, a, y) == 0.0
    ensures forall a :: a in s.accounts ==> Wealth(s, a) == s.accounts[a].cashAvailable
  {
  }

  // ---- theorems -----------------------------------------------------------------------

  /** Conservation: cash plus shares at cost less realised profit is the opening
      cash, so equity is the opening cash plus all profit, realised or not. */
  lemma EquityTheorem(cfg: Config, states: seq<Store>, steps: seq<Step>, i: nat, a: AccountId)
    requires IsPlainRun(cfg, states, steps) && IsOpening(states[0]) && i < |states|
    requires a in states[0].accounts
    ensures a in states[i].accounts
    ensures
      var opening, s := states[0].accounts[a].cashAvailable, states[i];
      var account := s.accounts[a];
      && account.cashAvailable + account.cashFrozen + Sum(Bases(a), s.positions) - account.realizedPnl == opening
      && account.equity == opening + account.realizedPnl + account.unrealizedPnl
  {
    OpeningIsInOrder(states[0]);
    RunKeepsShares(cfg, states, steps, i);
    var s := states[i];
    assert Wealth(s, a) == Wealth(states[0], a);
    SumLinear(UnrealizedPnls(a), MarketValues(a), Bases(a), s.positions);
  }

  /** Shares held are shares bought less shares sold; what resting sells do not lock
      is available; neither is ever negative. */
  lemma ShareTheorem(cfg: Config, states: seq<Store>, steps: seq<Step>, i: nat, a: AccountId, y: Symbol)
    requires IsPlainRun(cfg, states, steps) && IsOpening(states[0]) && i < |states|
    ensures
      var s := states[i];
      var held := Held(s.positions, a, y);
      && held.quantity == held.availableQuantity + Sum(Locks(a, y), s.orders)
      && held.quantity == Sum(Nets(a, y), s.orders)
      && 0.0 <= held.availableQuantity <= held.quantity
  {
    OpeningIsInOrder(states[0]);
    RunKeepsShares(cfg, states, steps, i);
    var s := states[i];
    assert LockGap(s, a, y) == 0.0 && NetGap(s, a, y) == NetGap(states[0], a, y) == 0.0;
    assert Held(s.positions, a, y).availableQuantity >= 0.0;
    SumNonNegative(Locks(a, y), s.orders);
  }

  /** A sale conserves wealth exactly when it is covered or the position has no
      cost: an oversold bracket erases basis that the profit does not pay for. */
  lemma SaleConservesIffCovered(cfg: SimConfig, s: Store, id: nat, price: real)
    requires id < |s.orders| && s.orders[id].status == Submitted && s.orders[id].side == Sell
    requires s.orders[id].accountId in s.accounts && s.orders[id].quantity > 0.0
    ensures ApplyFill(cfg, s, id, price).Ok?
    ensures
      var o := s.orders[id];
      var held := Held(s.positions, o.accountId, o.symbol);
      var s' := ApplyFill(cfg, s, id, price).value;
      && o.accountId in s'.accounts
      && (Wealth(s', o.accountId) == Wealth(s, o.accountId)
          <==> held.quantity >= o.quantity || held.avgCost == 0.0)
      && (Held(s'.positions, o.accountId, o.symbol).quantity == held.quantity - o.quantity
          <==> held.quantity >= o.quantity)
  {
    FillShape(cfg, s, id, price);
    var o := s.orders[id];
    var held := Held(s.positions, o.accountId, o.symbol);
    SettleWealth(cfg, s, id, price, o.accountId, Shortfall(held, o));
    NonZeroProduct(o.quantity - held.quantity, held.avgCost);
    SoldQuantity(cfg, s, id, price);
  }

  lemma SoldQuantity(cfg: SimConfig, s: Store, id: nat, price: real)
    requires id < |s.orders| && s.orders[id].side == Sell && s.orders[id].accountId in s.accounts
    ensures
      var o := s.orders[id];
      var was := Held(s.positions, o.accountId, o.symbol).quantity;
      Held(Settle(cfg, s, id, price).positions, o.accountId, o.symbol).quantity
        == if was >= o.quantity then was - o.quantity else 0.0
  {
    var o := s.orders[id];
    var p := PositionAfter(cfg, Held(s.positions, o.accountId, o.symbol), o, price);
    PutHeld(s.positions, p, o.accountId, o.symbol);
  }

  lemma NonZeroProduct(x: real, y: real)
    ensures x * y == 0.0 <==> x == 0.0 || y == 0.0
  {
  }
}
