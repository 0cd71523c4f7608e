/** Runs from an opening store on which a property fails that holds under the
    conditions of the theorems. */
module Examples {
  import opened Domain
  import opened Tables
  import opened Pricing
  import opened OrderService
  import opened Risk
  import opened LocalSim
  import opened Runs
  import opened Cash
  import opened CashRuns
  import opened Shares
  import opened Executor
  import opened Execution
  import opened Solvency
  import opened Acceptance
  import opened RowOrder
  import opened Basis
  import opened Coverage

  const RULES := RiskConfig(1000.0, 1000.0, 10, 0, 1.0, false, None)

  function Setup(sim: SimConfig): Config {
    Config(sim, RULES, Longbridge.LbConfig(Longbridge.Paper, false, false))
  }

  function Funded(cash: real): Store {
    Store(map[0 := Account(cash, 0.0, cash, 0.0, 0.0)], [], [], [], [], [], [], [])
  }

  function At(price: real): Quote {
    Quote(0, price, Some(price), Some(price))
  }

  function Priced(side: Side, orderType: OrderType, quantity: real, price: real): Intent {
    Intent(0, 0, side, orderType, quantity, Some(price), None, None)
  }

  // ---- extending a run ---------------------------------------------------------------------------

  lemma RunPush(cfg: Config, states: seq<Store>, steps: seq<Step>, step: Step)
    requires IsLocalRun(cfg, states, steps) && IsLocal(cfg, step) && Enabled(cfg, states[|steps|], step)
    ensures IsLocalRun(cfg, states + [Apply(cfg, states[|steps|], step)], steps + [step])
  {
    var more, path := states + [Apply(cfg, states[|steps|], step)], steps + [step];
    forall i | 0 <= i < |path|
      ensures Enabled(cfg, more[i], path[i]) && more[i + 1] == Apply(cfg, more[i], path[i]) && IsLocal(cfg, path[i])
    {
      assert i < |steps| ==> Enabled(cfg, states[i], steps[i]) && states[i + 1] == Apply(cfg, states[i], steps[i])
                             && IsLocal(cfg, steps[i]);
    }
  }

  /** The run with one more step, and its last store at rest. */
  lemma Extended(cfg: Config, states: seq<Store>, steps: seq<Step>, step: Step)
    returns (more: seq<Store>, path: seq<Step>)
    requires IsLocalRun(cfg, states, steps) && AtRest(states[0])
    requires IsLocal(cfg, step) && Enabled(cfg, states[|steps|], step)
    ensures |path| == |steps| + 1 && IsLocalRun(cfg, more, path) && more[0] == states[0]
    ensures more[|path|] == Apply(cfg, states[|steps|], step) && AtRest(more[|path|])
    ensures more[..|states|] == states && path[|steps|] == step
  {
    RunPush(cfg, states, steps, step);
    more, path := states + [Apply(cfg, states[|steps|], step)], steps + [step];
    RunKeepsCash(cfg, more, path, |path|);
  }

  /** What the later checks read of a store. */
  ghost predicate Shows(s: Store, s': Store) {
    s'.accounts == s.accounts && s'.positions == s.positions
  }

  lemma CreateShows(cfg: Config, s: Store, intent: Intent)
    requires ValidIntent(intent) && intent.signal.None?
    requires forall k :: 0 <= k < |s.orders| ==> !SameKey(s.orders[k], intent)
    ensures
      var step := StepCreate(intent, 0);
      && Enabled(cfg, s, step) && Shows(s, Apply(cfg, s, step))
      && Apply(cfg, s, step).orders == s.orders + [NewOrder(intent, 0)]
  {
    CreatedFresh(s, intent, 0);
  }

  lemma CheckShows(cfg: Config, s: Store, id: nat, ctx: Context)
    requires id < |s.orders| && s.orders[id].status == Created && (ctx.quote.Some? ==> ValidQuote(ctx.quote.value))
    requires Check(cfg.risk, s, id, ctx) == Approved
    ensures
      var step := StepRisk(id, ctx);
      && Enabled(cfg, s, step) && Shows(s, Apply(cfg, s, step))
      && Apply(cfg, s, step).orders == s.orders[id := s.orders[id].(status := RiskApproved)]
  {
    ApprovedIff(cfg.risk, s, id, ctx);
    CheckedRow(cfg.risk, s, id, ctx);
  }

  lemma BracketShows(cfg: Config, s: Store, id: nat)
    requires id < |s.orders| && s.orders[id].status == Created && IsBracket(s.orders[id])
    ensures
      var step := StepBracket(id);
      && Enabled(cfg, s, step) && Shows(s, Apply(cfg, s, step))
      && Apply(cfg, s, step).orders == s.orders[id := s.orders[id].(status := RiskApproved)]
  {
  }

  /** A first order for one instrument passes the rules when it is affordable. */
  lemma FirstBuyPasses(s: Store, intent: Intent, price: real)
    requires 0 in s.accounts && s.orders == [NewOrder(intent, 0)] && price > 0.0
    requires intent == Priced(Buy, intent.orderType, intent.quantity, 10.0) && 0.0 < intent.quantity <= 1.0
    requires s.accounts[0].cashAvailable >= 10.0 && s.accounts[0].realizedPnl == 0.0 && 10.0 <= price <= 20.0
    ensures Check(RULES, s, 0, Context(Some(At(price)), None, 0)) == Approved
  {
    var ctx := Context(Some(At(price)), None, 0);
    var value := EstimatedValue(s.orders[0], ctx.quote);
    assert value == Amount(intent.quantity, 10.0) && value <= 10.0;
    assert s.orders[..0] == [];
    assert CountSince(s.orders, 0, 0, DayStart(0)) == 0;
    assert !Deviates(RULES, 10.0, price);
    assert CheckActivity(RULES, s, 0, ctx, value) == Approved;
  }

  /** Create and approve a first buy limited at 10. */
  lemma ApprovedBuyRun(cfg: Config, cash: real, orderType: OrderType, quantity: real, price: real)
    returns (states: seq<Store>, steps: seq<Step>)
    requires cfg.risk == RULES && cash >= 10.0 && 0.0 < quantity <= 1.0 && 10.0 <= price <= 20.0
    ensures IsLocalRun(cfg, states, steps) && |steps| == 2 && states[0] == Funded(cash)
    ensures Shows(Funded(cash), states[2]) && AtRest(states[2])
    ensures states[2].orders == [NewOrder(Priced(Buy, orderType, quantity, 10.0), 0).(status := RiskApproved)]
  {
    var intent := Priced(Buy, orderType, quantity, 10.0);
    CreateShows(cfg, Funded(cash), intent);
    states, steps := Extended(cfg, [Funded(cash)], [], StepCreate(intent, 0));
    assert states[1].orders == [NewOrder(intent, 0)];
    FirstBuyPasses(states[1], intent, price);
    CheckShows(cfg, states[1], 0, Context(Some(At(price)), None, 0));
    states, steps := Extended(cfg, states, steps, StepRisk(0, Context(Some(At(price)), None, 0)));
  }

  /** A submission that reserves and trades at once. */
  lemma TradeShows(cfg: Config, s: Store, id: nat, quote: Quote)
    requires AtRest(s) && id < |s.orders| && ValidQuote(quote) && quote.symbol == s.orders[id].symbol
    requires s.orders[id].status == RiskApproved && Reserve(cfg.sim, s, id, quote).Reserved?
    requires FillPrice(s.orders[id], quote).Some?
    ensures
      var o, step := s.orders[id], StepSimSubmit(id, quote);
      var price := FillPrice(o, quote).value;
      && Enabled(cfg, s, step)
      && var s' := Apply(cfg, s, step);
         && o.accountId in s.accounts && o.accountId in s'.accounts
         && s'.accounts[o.accountId].cashAvailable
              == s.accounts[o.accountId].cashAvailable + CashAmount(cfg.sim, o, price)
         && s'.orders == s.orders[id := FilledRow(AcceptedRow(o, id), price)]
  {
    TradedCash(cfg.sim, s, id, quote);
    SubmitShape(cfg.sim, s, id, quote);
    AcceptedShape(cfg.sim, s, id, quote);
    FillShape(cfg.sim, Accepted(cfg.sim, s, id, quote), id, FillPrice(s.orders[id], quote).value);
  }

  /** A first purchase: its shares are held and available, its profit is still zero. */
  lemma BuyShows(cfg: Config, s: Store, id: nat, quote: Quote)
    requires AtRest(s) && id < |s.orders| && ValidQuote(quote) && quote.symbol == s.orders[id].symbol
    requires s.orders[id].status == RiskApproved && Reserve(cfg.sim, s, id, quote).Reserved?
    requires FillPrice(s.orders[id], quote).Some? && s.orders[id].side == Buy && s.positions == []
    ensures Enabled(cfg, s, StepSimSubmit(id, quote))
    ensures
      var o, s' := s.orders[id], Apply(cfg, s, StepSimSubmit(id, quote));
      var held := Held(s'.positions, o.accountId, o.symbol);
      && o.accountId in s.accounts && o.accountId in s'.accounts
      && HasPosition(s'.positions, o.accountId, o.symbol)
      && held.quantity == o.quantity && held.availableQuantity == o.quantity
      && held.avgCost == WeightedAvgCost(0.0, 0.0, o.quantity, CostAt(cfg.sim, o.quantity, FillPrice(o, quote).value))
      && s'.accounts[o.accountId].realizedPnl == s.accounts[o.accountId].realizedPnl
  {
    var o, price := s.orders[id], FillPrice(s.orders[id], quote).value;
    SubmitShape(cfg.sim, s, id, quote);
    AcceptedShape(cfg.sim, s, id, quote);
    AcceptShape(Reserve(cfg.sim, s, id, quote).store, id);
    var accepted := Accepted(cfg.sim, s, id, quote);
    assert accepted.positions == [];
    FillShape(cfg.sim, accepted, id, price);
    FillProfit(cfg.sim, accepted, id, price);
    FillHeld(cfg.sim, accepted, id, price, o.accountId, o.symbol);
  }

  // ---- a market buy with a limit price -------------------------------------------------------------

  lemma OverdrawingStep(cfg: Config, s: Store)
    requires cfg.sim == SimConfig(0.0, 0.0) && AtRest(s) && Shows(Funded(10.0), s)
    requires s.orders == [NewOrder(Priced(Buy, Market, 1.0, 10.0), 0).(status := RiskApproved)]
    ensures
      var step := StepSimSubmit(0, At(20.0));
      && Enabled(cfg, s, step) && 0 in Apply(cfg, s, step).accounts
      && Apply(cfg, s, step).accounts[0].cashAvailable == -10.0
  {
    TradeShows(cfg, s, 0, At(20.0));
  }

  /** A market buy of one share with limit 10 against an ask of 20: the account held
      10 and ends at -10. */
  lemma PricedMarketBuyOverdraws() returns (cfg: Config, states: seq<Store>, steps: seq<Step>)
    ensures ValidConfig(cfg.sim) && IsLocalRun(cfg, states, steps) && IsOpening(states[0]) && |steps| == 3
    ensures states[0] == Funded(10.0)
    ensures 0 in states[3].accounts && states[3].accounts[0].cashAvailable == -10.0
  {
    cfg := Setup(SimConfig(0.0, 0.0));
    states, steps := ApprovedBuyRun(cfg, 10.0, Market, 1.0, 20.0);
    OverdrawingStep(cfg, states[2]);
    states, steps := Extended(cfg, states, steps, StepSimSubmit(0, At(20.0)));
  }

  // ---- a purchase and a sale ------------------------------------------------------------------------

  /** After buying at 10: the shares are there, the cash for them is gone. */
  ghost predicate Bought(cfg: Config, s: Store, cash: real, quantity: real) {
    var cost, held := CostAt(cfg.sim, quantity, 10.0), Held(s.positions, 0, 0);
    && 0 in s.accounts && s.accounts[0].realizedPnl == 0.0 && s.accounts[0].cashAvailable == cash - cost
    && HasPosition(s.positions, 0, 0) && held.quantity == held.availableQuantity == quantity
    && held.avgCost == WeightedAvgCost(0.0, 0.0, quantity, cost)
    && |s.orders| == 1 && s.orders[0].side == Buy && s.orders[0].status == Filled && s.orders[0].createdAt == 0
    && s.orders[0].limitPrice == Some(10.0)
  }

  lemma BuyingStep(cfg: Config, s: Store, cash: real, quantity: real)
    requires AtRest(s) && Shows(Funded(cash), s) && quantity > 0.0 && cash >= CostAt(cfg.sim, quantity, 10.0)
    requires s.orders == [NewOrder(Priced(Buy, Limit, quantity, 10.0), 0).(status := RiskApproved)]
    ensures
      var step := StepSimSubmit(0, At(10.0));
      Enabled(cfg, s, step) && Bought(cfg, Apply(cfg, s, step), cash, quantity)
  {
    TradeShows(cfg, s, 0, At(10.0));
    BuyShows(cfg, s, 0, At(10.0));
  }

  lemma BoughtRun(cfg: Config, cash: real, quantity: real) returns (states: seq<Store>, steps: seq<Step>)
    requires cfg.risk == RULES && cash >= 10.0 && 0.0 < quantity <= 1.0 && cash >= CostAt(cfg.sim, quantity, 10.0)
    ensures IsLocalRun(cfg, states, steps) && |steps| == 3 && states[0] == Funded(cash)
    ensures AtRest(states[3]) && Bought(cfg, states[3], cash, quantity)
  {
    states, steps := ApprovedBuyRun(cfg, cash, Limit, quantity, 10.0);
    BuyingStep(cfg, states[2], cash, quantity);
    states, steps := Extended(cfg, states, steps, StepSimSubmit(0, At(10.0)));
  }

  lemma SalePasses(cfg: Config, s: Store, bought: Store, cash: real)
    requires Bought(cfg, bought, cash, 1.0) && Shows(bought, s)
    requires s.orders == bought.orders + [NewOrder(Priced(Sell, Limit, 1.0, 3.0), 0)]
    ensures Check(RULES, s, 1, Context(Some(At(3.0)), None, 0)) == Approved
  {
    var ctx := Context(Some(At(3.0)), None, 0);
    assert EstimatedValue(s.orders[1], ctx.quote) == 3.0;
    assert s.orders[..1][..0] == [] && CountSince(s.orders[..1], 1, 0, DayStart(0)) <= 1;
    assert CountSince(s.orders, 1, 0, DayStart(0)) <= 1;
    assert Abs(3.0 - 3.0) / 3.0 == 0.0;
    assert CheckActivity(RULES, s, 1, ctx, 3.0) == Approved;
  }

  lemma SellingStep(cfg: Config, s: Store, bought: Store, o: Order, price: real)
    requires AtRest(s) && Shows(bought, s) && price > 0.0 && 0 in s.accounts
    requires |bought.orders| == 1 && s.orders == bought.orders + [o]
    requires o.status == RiskApproved && o.side == Sell && o.accountId == o.symbol == 0 && o.limitPrice == Some(price)
    requires o.orderType in {Limit, StopLimit}
    requires o.orderType == Limit ==>
      HasPosition(s.positions, 0, 0) && Held(s.positions, 0, 0).availableQuantity >= o.quantity
    ensures
      var step := StepSimSubmit(1, At(price));
      && Enabled(cfg, s, step) && Call(cfg, s, step).Ok? && 0 in Apply(cfg, s, step).accounts
      && Reserve(cfg.sim, s, 1, At(price)).Reserved? && FillPrice(o, At(price)) == Some(price)
      && Apply(cfg, s, step).accounts[0].cashAvailable
           == s.accounts[0].cashAvailable + ProceedsAt(cfg.sim, o.quantity, price)
  {
    assert s.orders[1] == o;
    TradeShows(cfg, s, 1, At(price));
    TradedCash(cfg.sim, s, 1, At(price));
  }

  /** One share bought at 10 and sold at 3, with a minimum commission of 5: the cash is
      used up by the purchase, and the sale costs 2 more than it brings. */
  lemma SmallSaleOverdraws() returns (cfg: Config, states: seq<Store>, steps: seq<Step>)
    ensures ValidConfig(cfg.sim) && IsLocalRun(cfg, states, steps) && IsOpening(states[0]) && |steps| == 6
    ensures states[0] == Funded(15.0)
    ensures 0 in states[6].accounts && states[6].accounts[0].cashAvailable == -2.0
  {
    cfg := Setup(SimConfig(0.01, 5.0));
    states, steps := SaleRun(cfg);
    SellingStep(cfg, states[5], states[3], NewOrder(Priced(Sell, Limit, 1.0, 3.0), 0).(status := RiskApproved), 3.0);
    states, steps := Extended(cfg, states, steps, StepSimSubmit(1, At(3.0)));
  }

  /** One share bought, and its sale approved. */
  lemma SaleRun(cfg: Config) returns (states: seq<Store>, steps: seq<Step>)
    requires cfg == Setup(SimConfig(0.01, 5.0))
    ensures IsLocalRun(cfg, states, steps) && |steps| == 5 && states[0] == Funded(15.0) && AtRest(states[5])
    ensures Bought(cfg, states[3], 15.0, 1.0) && Shows(states[3], states[5])
    ensures states[5].orders == states[3].orders + [NewOrder(Priced(Sell, Limit, 1.0, 3.0), 0).(status := RiskApproved)]
    ensures states[5].accounts[0].cashAvailable == 0.0
  {
    states, steps := BoughtRun(cfg, 15.0, 1.0);
    var bought, intent := states[3], Priced(Sell, Limit, 1.0, 3.0);
    CreateShows(cfg, bought, intent);
    states, steps := Extended(cfg, states, steps, StepCreate(intent, 0));
    SalePasses(cfg, states[4], bought, 15.0);
    CheckShows(cfg, states[4], 1, Context(Some(At(3.0)), None, 0));
    states, steps := Extended(cfg, states, steps, StepRisk(1, Context(Some(At(3.0)), None, 0)));
  }

  // ---- an uncovered sale --------------------------------------------------------------------------------

  lemma UncoveredLoss(cfg: Config, s: Store, bought: Store, cash: real, intent: Intent)
    requires cfg.sim == SimConfig(0.0, 0.0) && Bought(cfg, bought, cash, 0.5) && Shows(bought, s) && AtRest(s)
    requires intent == Priced(Sell, StopLimit, 1.0, 8.0)
    requires s.orders == bought.orders + [NewOrder(intent, 0).(status := RiskApproved)]
    ensures
      var step := StepSimSubmit(1, At(8.0));
      Enabled(cfg, s, step) && StepTotal(LostBasis(), cfg, s, step, 0) == 5.0
  {
    SellingStep(cfg, s, bought, NewOrder(intent, 0).(status := RiskApproved), 8.0);
    var held := Held(s.positions, 0, 0);
    assert s.orders[1] == NewOrder(intent, 0).(status := RiskApproved);
    assert held.quantity == 0.5 && held.avgCost == 10.0;
    assert Shortfall(held, s.orders[1]) == Amount(0.5, 10.0) == 5.0;
  }

  /** Half a share held at 10 and a stop sale of one share at 8: the sale erases basis
      worth 5, and equity exceeds opening cash and profit by as much. */
  lemma UncoveredSaleErases() returns (cfg: Config, states: seq<Store>, steps: seq<Step>)
    ensures ValidConfig(cfg.sim) && IsLocalRun(cfg, states, steps) && IsOpening(states[0]) && |steps| == 6
    ensures states[0] == Funded(10.0) && 0 in states[5].accounts && 0 in states[6].accounts
    ensures Wealth(states[6], 0) == Wealth(states[5], 0) + 5.0
    ensures
      var account := states[6].accounts[0];
      account.equity > 10.0 + account.realizedPnl + account.unrealizedPnl
  {
    cfg := Setup(SimConfig(0.0, 0.0));
    states, steps := BoughtRun(cfg, 10.0, 0.5);
    var bought, intent := states[3], Priced(Sell, StopLimit, 1.0, 8.0);
    CreateShows(cfg, bought, intent);
    states, steps := Extended(cfg, states, steps, StepCreate(intent, 0));
    BracketShows(cfg, states[4], 1);
    states, steps := Extended(cfg, states, steps, StepBracket(1));
    var s, last := states[5], StepSimSubmit(1, At(8.0));
    UncoveredLoss(cfg, s, bought, 10.0, intent);
    states, steps := Extended(cfg, states, steps, last);
    LastStepErases(cfg, states, steps, s, last);
  }

  lemma LastStepErases(cfg: Config, states: seq<Store>, steps: seq<Step>, s: Store, last: Step)
    requires ValidConfig(cfg.sim) && IsLocalRun(cfg, states, steps) && IsOpening(states[0]) && states[0] == Funded(10.0)
    requires |steps| == 6 && states[5] == s && steps[5] == last && Enabled(cfg, s, last)
    requires StepTotal(LostBasis(), cfg, s, last, 0) == 5.0
    ensures 0 in states[5].accounts && 0 in states[6].accounts
    ensures Wealth(states[6], 0) == Wealth(states[5], 0) + 5.0
    ensures
      var account := states[6].accounts[0];
      account.equity > 10.0 + account.realizedPnl + account.unrealizedPnl
  {
    RunMoves(cfg, states, steps, 5, 0, 0);
    RunStepMoves(cfg, states, steps, 5, 0, 0);
    BasisTheorem(cfg, states, steps, 6, 0);
    LostBasisIsZeroIff(cfg, states, steps, 5, 0);
  }

  // ---- shares that depend on the row order --------------------------------------------------------------

  /** A submission that comes to rest. */
  lemma RestShows(cfg: Config, s: Store, id: nat, quote: Quote)
    requires AtRest(s) && id < |s.orders| && ValidQuote(quote) && quote.symbol == s.orders[id].symbol
    requires s.orders[id].status == RiskApproved && Reserve(cfg.sim, s, id, quote).Reserved?
    requires FillPrice(s.orders[id], quote).None?
    ensures
      var o, step := s.orders[id], StepSimSubmit(id, quote);
      && Enabled(cfg, s, step)
      && var s' := Apply(cfg, s, step);
         && s'.orders == s.orders[id := AcceptedRow(o, id)] && s'.accounts.Keys == s.accounts.Keys
         && (o.side == Buy || IsBracket(o) ==> s'.positions == s.positions)
         && (o.side == Sell ==> s'.accounts == s.accounts)
  {
    SubmitShape(cfg.sim, s, id, quote);
    AcceptedShape(cfg.sim, s, id, quote);
    AcceptShape(Reserve(cfg.sim, s, id, quote).store, id);
  }

  /** The stop sale of one share at 9 that rests, and the buy of one share at 9.5. */
  const STOP := AcceptedRow(NewOrder(Priced(Sell, StopLimit, 1.0, 9.0), 0), 1)
  const DIP_BUY := NewOrder(Priced(Buy, Limit, 1.0, 9.5), 0)
  const LATER := Context(Some(At(10.0)), None, 10)

  lemma RestingStep(cfg: Config, s: Store, bought: Store, cash: real)
    requires Bought(cfg, bought, cash, 0.5) && Shows(bought, s) && AtRest(s)
    requires s.orders == bought.orders + [NewOrder(Priced(Sell, StopLimit, 1.0, 9.0), 0).(status := RiskApproved)]
    ensures
      var step := StepSimSubmit(1, At(10.0));
      && Enabled(cfg, s, step) && Shows(bought, Apply(cfg, s, step))
      && Apply(cfg, s, step).orders == bought.orders + [STOP]
  {
    var o := NewOrder(Priced(Sell, StopLimit, 1.0, 9.0), 0).(status := RiskApproved);
    assert s.orders[1] == o;
    RestShows(cfg, s, 1, At(10.0));
  }

  lemma DipBuyPasses(cfg: Config, s: Store, bought: Store)
    requires cfg.sim == SimConfig(0.0, 0.0) && Bought(cfg, bought, 100.0, 0.5) && Shows(bought, s)
    requires s.orders == bought.orders + [STOP] + [DIP_BUY]
    ensures Check(RULES, s, 2, LATER) == Approved
  {
    assert EstimatedValue(s.orders[2], LATER.quote) == 9.5;
    CountIsSmall(s.orders, 2, 0, DayStart(10));
    assert Abs(9.5 - 10.0) / 10.0 == 0.05;
    assert CheckActivity(RULES, s, 2, LATER, 9.5) == Approved;
  }

  lemma {:induction false} CountIsSmall(orders: seq<Order>, id: nat, a: AccountId, since: int)
    ensures CountSince(orders, id, a, since) <= |orders|
  {
    if orders != [] {
      CountIsSmall(orders[..|orders| - 1], id, a, since);
    }
  }

  lemma DipBuyRests(cfg: Config, s: Store, bought: Store)
    requires cfg.sim == SimConfig(0.0, 0.0) && Bought(cfg, bought, 100.0, 0.5) && Shows(bought, s) && AtRest(s)
    requires s.orders == bought.orders + [STOP] + [DIP_BUY.(status := RiskApproved)]
    ensures
      var step := StepSimSubmit(2, At(10.0));
      && Enabled(cfg, s, step) && Apply(cfg, s, step).positions == bought.positions
      && 0 in Apply(cfg, s, step).accounts
      && Apply(cfg, s, step).orders == bought.orders + [STOP] + [AcceptedRow(DIP_BUY, 2)]
  {
    assert s.orders[2] == DIP_BUY.(status := RiskApproved);
    assert CostAt(cfg.sim, 1.0, 9.5) == 9.5;
    RestShows(cfg, s, 2, At(10.0));
  }

  lemma DipIsAmbiguous(cfg: SimConfig, s: Store)
    requires AtRest(s) && |s.orders| == 3 && s.orders[0].status == Filled
    requires s.orders[1] == STOP && s.orders[2] == AcceptedRow(DIP_BUY, 2) && Held(s.positions, 0, 0).quantity == 0.5
    ensures RestingRows(s.orders, 0, [1, 2]) && RestingRows(s.orders, 0, [2, 1])
    ensures SharesAfter(cfg, s, At(8.0), [1, 2], 0) == Some(1.0)
    ensures SharesAfter(cfg, s, At(8.0), [2, 1], 0) == Some(0.5)
  {
    var quote := At(8.0);
    SharesAfterIs(cfg, s, quote, [1, 2], 0);
    SharesAfterIs(cfg, s, quote, [2, 1], 0);
    TwoRows(s.orders, quote, 0, 0.5, 1, 2);
    TwoRows(s.orders, quote, 0, 0.5, 2, 1);
    assert [1][..0] == [] && [2][..0] == [];
  }

  /** The store that half a share at cost 10 leaves is also one where profit depends on
      the order: the buy costs 8, the shares held cost 10 each. */
  lemma DipProfitDiffers(cfg: SimConfig, s: Store)
    requires cfg == SimConfig(0.0, 0.0) && |s.orders| == 3 && 0 in s.accounts
    requires s.orders[1] == STOP && s.orders[2] == AcceptedRow(DIP_BUY, 2)
    requires Held(s.positions, 0, 0).quantity == 0.5 && Held(s.positions, 0, 0).avgCost == 10.0
    ensures
      var saleFirst, buyFirst := MatchRows(cfg, s, At(8.0), [1, 2]), MatchRows(cfg, s, At(8.0), [2, 1]);
      && saleFirst.Ok? && 0 in saleFirst.value.accounts && buyFirst.Ok? && 0 in buyFirst.value.accounts
      && saleFirst.value.accounts[0].realizedPnl != buyFirst.value.accounts[0].realizedPnl
  {
    ProfitDependsOnRowOrder(cfg, s, At(8.0), 2, 1);
  }

  /** Half a share held, a stop sale of one at 9 and a buy of one at 9.5 at rest; the
      price drops to 8.  One share is left if the sale comes first, half a share if
      the buy does, and the realised profit differs too. */
  lemma SharesDependOnRowOrder() returns (cfg: Config, states: seq<Store>, steps: seq<Step>)
    ensures ValidConfig(cfg.sim) && IsLocalRun(cfg, states, steps) && IsOpening(states[0]) && |steps| == 9
    ensures RestingRows(states[9].orders, 0, [1, 2]) && RestingRows(states[9].orders, 0, [2, 1])
    ensures SharesAfter(cfg.sim, states[9], At(8.0), [1, 2], 0) == Some(1.0)
    ensures SharesAfter(cfg.sim, states[9], At(8.0), [2, 1], 0) == Some(0.5)
    ensures
      var saleFirst := MatchRows(cfg.sim, states[9], At(8.0), [1, 2]);
      var buyFirst := MatchRows(cfg.sim, states[9], At(8.0), [2, 1]);
      && saleFirst.Ok? && 0 in saleFirst.value.accounts && buyFirst.Ok? && 0 in buyFirst.value.accounts
      && saleFirst.value.accounts[0].realizedPnl != buyFirst.value.accounts[0].realizedPnl
  {
    cfg := Setup(SimConfig(0.0, 0.0));
    var bought;
    states, steps, bought := StopRun(cfg);
    var s := states[6];
    CreateShows(cfg, s, Priced(Buy, Limit, 1.0, 9.5));
    states, steps := Extended(cfg, states, steps, StepCreate(Priced(Buy, Limit, 1.0, 9.5), 0));
    DipBuyPasses(cfg, states[7], bought);
    CheckShows(cfg, states[7], 2, LATER);
    states, steps := Extended(cfg, states, steps, StepRisk(2, LATER));
    DipBuyRests(cfg, states[8], bought);
    states, steps := Extended(cfg, states, steps, StepSimSubmit(2, At(10.0)));
    DipIsAmbiguous(cfg.sim, states[9]);
    DipProfitDiffers(cfg.sim, states[9]);
  }

  /** Half a share bought, and the stop sale at rest. */
  lemma StopRun(cfg: Config) returns (states: seq<Store>, steps: seq<Step>, bought: Store)
    requires cfg == Setup(SimConfig(0.0, 0.0))
    ensures IsLocalRun(cfg, states, steps) && |steps| == 6 && states[0] == Funded(100.0) && AtRest(states[6])
    ensures Bought(cfg, bought, 100.0, 0.5) && Shows(bought, states[6]) && states[6].orders == bought.orders + [STOP]
  {
    states, steps := BoughtRun(cfg, 100.0, 0.5);
    bought := states[3];
    var intent := Priced(Sell, StopLimit, 1.0, 9.0);
    CreateShows(cfg, bought, intent);
    states, steps := Extended(cfg, states, steps, StepCreate(intent, 0));
    BracketShows(cfg, states[4], 1);
    states, steps := Extended(cfg, states, steps, StepBracket(1));
    RestingStep(cfg, states[5], bought, 100.0);
    states, steps := Extended(cfg, states, steps, StepSimSubmit(1, At(10.0)));
  }

  // ---- children at one price ------------------------------------------------------------------------------

  /** The request that commits with children at 12 and 8 raises with both at 12. */
  lemma SamePriceRaises()
    ensures
      var p := EXAMPLE_REQUEST.proposal.(stopLoss := Some(12.0));
      Execute(UseSim(SimConfig(0.0, 0.0)), EXAMPLE_RULES, EXAMPLE_STORE, EXAMPLE_REQUEST.(proposal := p)).Raised?
  {
    var req := EXAMPLE_REQUEST.(proposal := EXAMPLE_REQUEST.proposal.(stopLoss := Some(12.0)));
    PaperExecutionCommitsIff(SimConfig(0.0, 0.0), EXAMPLE_RULES, EXAMPLE_STORE, req);
  }

  // ---- a sale at rest -------------------------------------------------------------------------------------

  lemma SaleRests(cfg: Config, s: Store, bought: Store)
    requires cfg.sim == SimConfig(0.01, 5.0) && Bought(cfg, bought, 15.0, 1.0) && Shows(bought, s) && AtRest(s)
    requires s.orders == bought.orders + [NewOrder(Priced(Sell, Limit, 1.0, 3.0), 0).(status := RiskApproved)]
    ensures
      var step := StepSimSubmit(1, At(2.0));
      && Enabled(cfg, s, step) && Apply(cfg, s, step).accounts == s.accounts
      && Apply(cfg, s, step).orders == bought.orders + [AcceptedRow(NewOrder(Priced(Sell, Limit, 1.0, 3.0), 0), 1)]
  {
    assert s.orders[1] == NewOrder(Priced(Sell, Limit, 1.0, 3.0), 0).(status := RiskApproved);
    RestShows(cfg, s, 1, At(2.0));
  }

  lemma QuoteOverdraws(cfg: Config, s: Store)
    requires cfg.sim == SimConfig(0.01, 5.0) && AtRest(s) && 0 in s.accounts && s.accounts[0].cashAvailable == 0.0
    requires |s.orders| == 2 && s.orders[0].status == Filled
    requires s.orders[1] == AcceptedRow(NewOrder(Priced(Sell, Limit, 1.0, 3.0), 0), 1)
    ensures
      var step := StepSimQuote(At(3.0), [1]);
      && Enabled(cfg, s, step) && 0 in Apply(cfg, s, step).accounts
      && Apply(cfg, s, step).accounts[0].cashAvailable == -2.0
  {
    assert RowOk(s, s.orders[1]);
    MatchCash(cfg.sim, s, 1, At(3.0), 0);
    SmallSaleCosts();
    OneRowQuote(cfg.sim, s, 1, At(3.0));
  }

  lemma SmallSaleCosts()
    ensures
      var o := AcceptedRow(NewOrder(Priced(Sell, Limit, 1.0, 3.0), 0), 1);
      CashAdded(SimConfig(0.01, 5.0), At(3.0), 0)(o) == -2.0
  {
  }

  lemma OneRowQuote(cfg: SimConfig, s: Store, id: nat, quote: Quote)
    requires id < |s.orders|
    ensures MatchRows(cfg, s, quote, [id]) == Match(cfg, s, id, quote)
  {
    assert [id][..0] == [];
  }

  /** The same sale, resting at 3 while the price is 2 and filled by a later quote: it
      overdraws the account just so. */
  lemma RestingSaleOverdraws() returns (cfg: Config, states: seq<Store>, steps: seq<Step>)
    ensures ValidConfig(cfg.sim) && IsLocalRun(cfg, states, steps) && IsOpening(states[0]) && |steps| == 7
    ensures states[0] == Funded(15.0) && steps[6] == StepSimQuote(At(3.0), [1])
    ensures 0 in states[7].accounts && states[7].accounts[0].cashAvailable == -2.0
  {
    cfg := Setup(SimConfig(0.01, 5.0));
    states, steps := RestingSaleRun(cfg);
    QuoteOverdraws(cfg, states[6]);
    states, steps := Extended(cfg, states, steps, StepSimQuote(At(3.0), [1]));
  }

  lemma RestingSaleRun(cfg: Config) returns (states: seq<Store>, steps: seq<Step>)
    requires cfg == Setup(SimConfig(0.01, 5.0))
    ensures IsLocalRun(cfg, states, steps) && |steps| == 6 && states[0] == Funded(15.0) && AtRest(states[6])
    ensures 0 in states[6].accounts && states[6].accounts[0].cashAvailable == 0.0
    ensures |states[6].orders| == 2 && states[6].orders[0].status == Filled
    ensures states[6].orders[1] == AcceptedRow(NewOrder(Priced(Sell, Limit, 1.0, 3.0), 0), 1)
  {
    states, steps := SaleRun(cfg);
    SaleRests(cfg, states[5], states[3]);
    states, steps := Extended(cfg, states, steps, StepSimSubmit(1, At(2.0)));
  }
}
