/** Available and frozen cash never go negative when market buys carry no limit
    price and no sale costs more in commission than it brings in; and what exactly
    a market buy with a limit price does. */
module Solvency {
  import opened Domain
  import opened Sums
  import opened Tables
  import opened Pricing
  import opened OrderService
  import opened Risk
  import opened LocalSim
  import opened Longbridge
  import opened Executor
  import opened Runs
  import opened Cash
  import opened CashRuns
  import opened Execution
  import opened Gate
  import opened Commits
  import opened RowOrder

  ghost predicate Solvent(s: Store) {
    forall a :: a in s.accounts ==> s.accounts[a].cashAvailable >= 0.0
  }

  /** A market buy still on its way to the broker has no limit price. */
  predicate PlainRow(o: Order) {
    o.side == Buy && o.orderType == Market && o.status in {Created, RiskApproved} ==> o.limitPrice.None?
  }

  ghost predicate PlainBuys(orders: seq<Order>) {
    forall k :: 0 <= k < |orders| ==> PlainRow(orders[k])
  }

  /** If this quote fills the sale, the gross covers the commission. */
  predicate SaleCovers(cfg: SimConfig, o: Order, quote: Quote) {
    o.side == Sell && FillPrice(o, quote).Some? ==>
      ProceedsAt(cfg, o.quantity, FillPrice(o, quote).value) >= 0.0
  }

  predicate PriceCovers(cfg: SimConfig, quantity: real, price: Option<real>) {
    price.Some? ==> ProceedsAt(cfg, quantity, price.value) >= 0.0
  }

  /** What a caller can check before the step. */
  predicate Prudent(cfg: SimConfig, s: Store, step: Step) {
    match step
    case StepCreate(intent, now) => PlainRow(NewOrder(intent, now))
    case StepSimSubmit(id, quote) => id < |s.orders| ==> SaleCovers(cfg, s.orders[id], quote)
    case StepSimQuote(quote, rows) =>
      forall i :: 0 <= i < |rows| && rows[i] < |s.orders| ==> SaleCovers(cfg, s.orders[rows[i]], quote)
    case StepExecute(_, req) =>
      var p := req.proposal;
      if p.action == BuyAction then
        PriceCovers(cfg, p.quantity, p.takeProfit) && PriceCovers(cfg, p.quantity, p.stopLoss)
      else PriceCovers(cfg, p.quantity, p.limitPrice)
    case _ => true
  }

  // ---- money ------------------------------------------------------------------------------

  /** The fill costs no more than was reserved, or pays for itself. */
  predicate FillCovers(cfg: SimConfig, o: Order, price: real) {
    if o.side == Buy then price <= Or(o.limitPrice, price)
    else ProceedsAt(cfg, o.quantity, price) >= 0.0
  }

  lemma FillKeepsSolvent(cfg: SimConfig, s: Store, id: nat, price: real)
    requires ValidConfig(cfg) && Solvent(s) && id < |s.orders| && s.orders[id].status == Submitted
    requires s.orders[id].accountId in s.accounts && s.orders[id].quantity > 0.0
    requires FillCovers(cfg, s.orders[id], price)
    ensures ApplyFill(cfg, s, id, price).Ok? && Solvent(ApplyFill(cfg, s, id, price).value)
  {
    FillShape(cfg, s, id, price);
    var o := s.orders[id];
    if o.side == Buy {
      CostMonotone(cfg, o.quantity, price, Or(o.limitPrice, price));
    }
    SettleCash(cfg, s, id, price, o.accountId);
    forall a | a in s.accounts
      ensures Settle(cfg, s, id, price).accounts[a].cashAvailable >= 0.0
    {
      SettleCash(cfg, s, id, price, a);
    }
  }

  lemma AcceptKeepsSolvent(cfg: SimConfig, s: Store, id: nat, quote: Quote)
    requires Solvent(s) && id < |s.orders| && s.orders[id].status == RiskApproved
    requires Reserve(cfg, s, id, quote).Reserved?
    ensures Solvent(Accepted(cfg, s, id, quote))
  {
    AcceptShape(Reserve(cfg, s, id, quote).store, id);
  }

  lemma SubmitKeepsSolvent(cfg: SimConfig, s: Store, id: nat, quote: Quote)
    requires ValidConfig(cfg) && Solvent(s) && AtRest(s) && id < |s.orders| && ValidQuote(quote)
    requires FillPrice(s.orders[id], quote).Some?
      ==> FillCovers(cfg, s.orders[id], FillPrice(s.orders[id], quote).value)
    ensures Submit(cfg, s, id, quote).Ok? && Solvent(Submit(cfg, s, id, quote).value.0)
  {
    SubmitAtRest(cfg, s, id, quote);
    SubmitShape(cfg, s, id, quote);
    var o := s.orders[id];
    assert RowOk(s, o);
    if o.status == RiskApproved && quote.symbol == o.symbol && Reserve(cfg, s, id, quote).Reserved? {
      AcceptedShape(cfg, s, id, quote);
      AcceptKeepsSolvent(cfg, s, id, quote);
      if FillPrice(o, quote).Some? {
        FillKeepsSolvent(cfg, Accepted(cfg, s, id, quote), id, FillPrice(o, quote).value);
      }
    }
  }

  /** A quote fills a buy at no more than its limit, unless it is a priced market buy. */
  lemma QuoteCovers(cfg: SimConfig, o: Order, quote: Quote)
    requires FillPrice(o, quote).Some? && SaleCovers(cfg, o, quote)
    requires o.side == Buy && o.orderType == Market ==> o.limitPrice.None?
    ensures FillCovers(cfg, o, FillPrice(o, quote).value)
  {
  }

  lemma CancelKeepsSolvent(cfg: SimConfig, s: Store, id: nat)
    requires ValidConfig(cfg) && Solvent(s) && AtRest(s) && id < |s.orders|
    ensures Cancel(cfg, s, id).Ok? && Solvent(Cancel(cfg, s, id).value.0)
  {
    CancelAtRest(cfg, s, id);
    var o := s.orders[id];
    assert RowOk(s, o);
    if o.status == Submitted {
      CostNonNegative(cfg, o.quantity, o.limitPrice.value);
      forall a | a in s.accounts
        ensures a in Cancel(cfg, s, id).value.0.accounts
        ensures Cancel(cfg, s, id).value.0.accounts[a].cashAvailable >= s.accounts[a].cashAvailable
      {
        CancelledCash(cfg, s, id, a);
      }
    }
  }

  /** A cancelled buy gives its reservation back to the available cash. */
  lemma CancelledCash(cfg: SimConfig, s: Store, id: nat, a: AccountId)
    requires id < |s.orders| && s.orders[id].status == Submitted && s.orders[id].limitPrice.Some?
    requires a in s.accounts && Cancel(cfg, s, id).Ok?
    ensures
      var o, s' := s.orders[id], Cancel(cfg, s, id).value.0;
      && s'.accounts.Keys == s.accounts.Keys
      && s'.accounts[a].cashAvailable == s.accounts[a].cashAvailable
           + (if a == o.accountId && o.side == Buy then CostAt(cfg, o.quantity, o.limitPrice.value) else 0.0)
  {
    CancelShape(cfg, s, id);
    ReleaseCash(cfg, SetOrder(s, id, s.orders[id].(status := CancelPending)), id, a);
  }

  lemma MatchKeepsSolvent(cfg: SimConfig, s: Store, id: nat, quote: Quote)
    requires ValidConfig(cfg) && Solvent(s) && AtRest(s) && ValidQuote(quote)
    requires id < |s.orders| && s.orders[id].status == Submitted && SaleCovers(cfg, s.orders[id], quote)
    ensures Match(cfg, s, id, quote).Ok? && Solvent(Match(cfg, s, id, quote).value)
  {
    assert RowOk(s, s.orders[id]);
    if FillPrice(s.orders[id], quote).Some? {
      QuoteCovers(cfg, s.orders[id], quote);
      FillKeepsSolvent(cfg, s, id, FillPrice(s.orders[id], quote).value);
    }
  }

  lemma {:induction false} MatchRowsKeepsSolvent(cfg: SimConfig, s: Store, quote: Quote, rows: seq<nat>)
    requires ValidConfig(cfg) && Solvent(s) && AtRest(s) && ValidQuote(quote)
    requires forall i :: 0 <= i < |rows| ==>
      rows[i] < |s.orders| && s.orders[rows[i]].status == Submitted && SaleCovers(cfg, s.orders[rows[i]], quote)
    requires forall i, j :: 0 <= i < j < |rows| ==> rows[i] != rows[j]
    ensures MatchRows(cfg, s, quote, rows).Ok? && Solvent(MatchRows(cfg, s, quote, rows).value)
  {
    if rows != [] {
      var last := |rows| - 1;
      MatchRowsKeepsSolvent(cfg, s, quote, rows[..last]);
      RowStays(cfg, s, quote, rows);
      MatchKeepsSolvent(cfg, MatchRows(cfg, s, quote, rows[..last]).value, rows[last], quote);
    }
  }

  // ---- the executor ---------------------------------------------------------------------------

  /** At the order's own price a buy costs what it reserved. */
  lemma FlatSubmitKeepsSolvent(cfg: SimConfig, s: Store, id: nat, price: real)
    requires ValidConfig(cfg) && Solvent(s) && AtRest(s) && id < |s.orders| && price > 0.0
    requires s.orders[id].limitPrice == Some(price)
    requires s.orders[id].side == Sell ==> ProceedsAt(cfg, s.orders[id].quantity, price) >= 0.0
    ensures
      var r := Submit(cfg, s, id, FlatQuote(s.orders[id].symbol, price));
      r.Ok? && Solvent(r.value.0)
  {
    FlatQuoteFills(s.orders[id], s.orders[id].symbol, price);
    SubmitKeepsSolvent(cfg, s, id, FlatQuote(s.orders[id].symbol, price));
  }

  lemma ChildKeepsSolvent(cfg: SimConfig, s: Store, parent: Intent, orderType: OrderType,
                          price: Option<real>, reply: Reply, now: int)
    requires ValidConfig(cfg) && Solvent(s) && AtRest(s) && PriceCovers(cfg, parent.quantity, price)
    requires SubmitChild(UseSim(cfg), s, parent, orderType, price, reply, now).Ok?
    ensures Solvent(SubmitChild(UseSim(cfg), s, parent, orderType, price, reply, now).value.0)
  {
    if parent.side == Buy && Wanted(price) {
      var intent := parent.(side := Sell, orderType := orderType, limitPrice := price);
      CreateAtRest(cfg, s, intent, now);
      var (created, id) := CreateOrder(s, intent, now);
      ApproveAtRest(cfg, created, id, RiskApproved, BracketAutoApproved);
      var approved := Transition(created, id, RiskApproved, BracketAutoApproved).value;
      FlatSubmitKeepsSolvent(cfg, approved, id, price.value);
    }
  }

  lemma MainKeepsSolvent(cfg: SimConfig, risk: RiskConfig, s: Store, req: Request, intent: Intent)
    requires ValidConfig(cfg) && Solvent(s) && AtRest(s)
    requires intent.side == Sell ==> PriceCovers(cfg, intent.quantity, intent.limitPrice)
    requires SubmitMain(UseSim(cfg), risk, s, req, intent).Ok?
    ensures Solvent(SubmitMain(UseSim(cfg), risk, s, req, intent).value.0)
  {
    var price := intent.limitPrice.value;
    var ctx := Context(Some(FlatQuote(intent.symbol, price)), req.marketOpen, req.now);
    CreateAtRest(cfg, s, intent, req.now);
    var (created, id) := CreateOrder(s, intent, req.now);
    RiskAtRest(cfg, risk, created, id, ctx);
    CheckedRow(risk, created, id, ctx);
    FlatSubmitKeepsSolvent(cfg, RunRiskCheck(risk, created, id, ctx).value, id, price);
  }

  lemma ExecuteKeepsSolvent(cfg: SimConfig, risk: RiskConfig, s: Store, req: Request)
    requires ValidConfig(cfg) && Solvent(s) && AtRest(s) && Prudent(cfg, s, StepExecute(UseSim(cfg), req))
    requires Execute(UseSim(cfg), risk, s, req).Ok?
    ensures Solvent(Execute(UseSim(cfg), risk, s, req).value.0)
  {
    var p := req.proposal;
    if TraceIndex(s, req.trace, req.strategy, p.symbol, 0) == |s.orders| {
      var signalled := s.(signals := s.signals + [Signal(req.trace, req.strategy, p.symbol)]);
      SameMoneyAtRest(cfg, s, signalled);
      var intent := MainIntent(req, |s.signals|);
      MainAtRest(cfg, risk, signalled, req, intent);
      MainKeepsSolvent(cfg, risk, signalled, req, intent);
      var main := SubmitMain(UseSim(cfg), risk, signalled, req, intent).value.0;
      if intent.side == Buy {
        ChildAtRest(cfg, main, intent, LimitIfTouched, p.takeProfit, req.profitReply, req.now);
        ChildKeepsSolvent(cfg, main, intent, LimitIfTouched, p.takeProfit, req.profitReply, req.now);
        var profit :=
          SubmitChild(UseSim(cfg), main, intent, LimitIfTouched, p.takeProfit, req.profitReply, req.now).value.0;
        ChildKeepsSolvent(cfg, profit, intent, StopLimit, p.stopLoss, req.lossReply, req.now);
      }
    }
  }

  /** An executed market buy may carry a limit price, but it does not stay on its way. */
  lemma ExecuteKeepsPlain(cfg: SimConfig, risk: RiskConfig, s: Store, req: Request)
    requires PlainBuys(s.orders) && NoneWaiting(s, Some(|s.signals|)) && Execute(UseSim(cfg), risk, s, req).Ok?
    ensures PlainBuys(Execute(UseSim(cfg), risk, s, req).value.0.orders)
  {
    SimExecutionFills(cfg, risk, s, req);
    FilledRowsArePlain(s.orders, Execute(UseSim(cfg), risk, s, req).value.0.orders);
  }

  lemma FilledRowsArePlain(orders: seq<Order>, now: seq<Order>)
    requires PlainBuys(orders) && |orders| <= |now| && now[..|orders|] == orders
    requires forall k :: |orders| <= k < |now| ==> now[k].status == Filled
    ensures PlainBuys(now)
  {
    forall k | 0 <= k < |now|
      ensures PlainRow(now[k])
    {
      if k < |orders| {
        assert now[k] == now[..|orders|][k];
      }
    }
  }

  // ---- every step, every run -------------------------------------------------------------------

  lemma QuoteKeepsPlain(cfg: SimConfig, s: Store, quote: Quote, rows: seq<nat>)
    requires AtRest(s) && PlainBuys(s.orders) && ValidQuote(quote) && RestingRows(s.orders, quote.symbol, rows)
    ensures MatchRows(cfg, s, quote, rows).Ok? && PlainBuys(MatchRows(cfg, s, quote, rows).value.orders)
  {
    MatchRowsAtRest(cfg, s, quote, rows);
  }

  lemma StepKeepsPlain(cfg: Config, s: Store, step: Step)
    requires AtRest(s) && PlainBuys(s.orders) && NoneWaiting(s, Some(|s.signals|))
    requires Enabled(cfg, s, step) && IsLocal(cfg, step) && Prudent(cfg.sim, s, step)
    ensures PlainBuys(Apply(cfg, s, step).orders)
  {
    if Call(cfg, s, step).Ok? {
      match step
      case StepCreate(intent, now) =>
      case StepRisk(id, ctx) => CheckedRow(cfg.risk, s, id, ctx);
      case StepBracket(id) =>
      case StepSimSubmit(id, quote) => SubmitChangesRow(cfg.sim, s, id, quote);
      case StepSimCancel(id) =>
        if s.orders[id].status == Submitted {
          CancelShape(cfg.sim, s, id);
        }
      case StepSimQuote(quote, rows) => QuoteKeepsPlain(cfg.sim, s, quote, rows);
      case StepExecute(broker, req) => ExecuteKeepsPlain(cfg.sim, cfg.risk, s, req);
    }
  }

  lemma StepKeepsSolvent(cfg: Config, s: Store, step: Step)
    requires ValidConfig(cfg.sim) && AtRest(s) && Solvent(s) && PlainBuys(s.orders)
    requires Enabled(cfg, s, step) && IsLocal(cfg, step) && Prudent(cfg.sim, s, step)
    ensures Solvent(Apply(cfg, s, step))
  {
    if Call(cfg, s, step).Ok? {
      match step
      case StepCreate(intent, now) =>
      case StepRisk(id, ctx) => CheckedRow(cfg.risk, s, id, ctx);
      case StepBracket(id) =>
      case StepSimSubmit(id, quote) =>
        if s.orders[id].status == RiskApproved {
          if FillPrice(s.orders[id], quote).Some? {
            QuoteCovers(cfg.sim, s.orders[id], quote);
          }
          SubmitKeepsSolvent(cfg.sim, s, id, quote);
        }
      case StepSimCancel(id) => CancelKeepsSolvent(cfg.sim, s, id);
      case StepSimQuote(quote, rows) => MatchRowsKeepsSolvent(cfg.sim, s, quote, rows);
      case StepExecute(broker, req) => ExecuteKeepsSolvent(cfg.sim, cfg.risk, s, req);
    }
  }

  lemma RunStepKeepsSolvent(cfg: Config, states: seq<Store>, steps: seq<Step>, i: nat)
    requires ValidConfig(cfg.sim) && IsLocalRun(cfg, states, steps) && IsOpening(states[0]) && i < |steps|
    requires Prudent(cfg.sim, states[i], steps[i]) && PlainBuys(states[i].orders) && Solvent(states[i])
    ensures PlainBuys(states[i + 1].orders) && Solvent(states[i + 1])
  {
    RunKeepsCash(cfg, states, steps, i);
    NextSignalIsNew(cfg, states, steps, i);
    assert Enabled(cfg, states[i], steps[i]) && states[i + 1] == Apply(cfg, states[i], steps[i]);
    StepKeepsSolvent(cfg, states[i], steps[i]);
    StepKeepsPlain(cfg, states[i], steps[i]);
  }

  ghost predicate IsPrudentRun(cfg: Config, states: seq<Store>, steps: seq<Step>) {
    |steps| <= |states| && forall k :: 0 <= k < |steps| ==> Prudent(cfg.sim, states[k], steps[k])
  }

  lemma {:induction false} RunKeepsSolvent(cfg: Config, states: seq<Store>, steps: seq<Step>, i: nat)
    requires ValidConfig(cfg.sim) && IsLocalRun(cfg, states, steps) && IsOpening(states[0]) && i < |states|
    requires IsPrudentRun(cfg, states, steps)
    ensures PlainBuys(states[i].orders) && Solvent(states[i])
  {
    if i > 0 {
      RunKeepsSolvent(cfg, states, steps, i - 1);
      RunStepKeepsSolvent(cfg, states, steps, i - 1);
    }
  }

  /** On every prudent local run, brackets included, no account ever shows negative
      available or frozen cash. */
  lemma SolvencyTheorem(cfg: Config, states: seq<Store>, steps: seq<Step>, i: nat)
    requires ValidConfig(cfg.sim) && IsLocalRun(cfg, states, steps) && IsOpening(states[0]) && i < |states|
    requires IsPrudentRun(cfg, states, steps)
    ensures forall a :: a in states[i].accounts ==>
      states[i].accounts[a].cashAvailable >= 0.0 && states[i].accounts[a].cashFrozen >= 0.0
  {
    RunKeepsSolvent(cfg, states, steps, i);
    forall a | a in states[i].accounts
      ensures states[i].accounts[a].cashFrozen >= 0.0
    {
      FrozenIsNonNegative(cfg, states, steps, i, a);
    }
  }

  lemma FrozenIsNonNegative(cfg: Config, states: seq<Store>, steps: seq<Step>, i: nat, a: AccountId)
    requires ValidConfig(cfg.sim) && IsLocalRun(cfg, states, steps) && IsOpening(states[0]) && i < |states|
    requires a in states[i].accounts
    ensures states[i].accounts[a].cashFrozen >= 0.0
  {
    RunKeepsCash(cfg, states, steps, i);
    var s := states[i];
    CashTheorem(cfg, states, steps, i, a);
    forall k | 0 <= k < |s.orders|
      ensures Reserves(cfg.sim, a, 0.0)(s.orders[k]) >= 0.0
    {
      var o := s.orders[k];
      assert RowOk(s, o);
      CostNonNegative(cfg.sim, o.quantity, Or(o.limitPrice, 0.0));
    }
    SumNonNegative(Reserves(cfg.sim, a, 0.0), s.orders);
  }

  /** In every state of every local run an account is solvent exactly when the opening
      cash and the flows of the filled orders cover what the resting buys reserve. */
  lemma SolventIff(cfg: Config, states: seq<Store>, steps: seq<Step>, i: nat, a: AccountId)
    requires IsLocalRun(cfg, states, steps) && IsOpening(states[0]) && i < |states| && a in states[0].accounts
    ensures a in states[i].accounts
    ensures
      var opening, orders := states[0].accounts[a].cashAvailable, states[i].orders;
      states[i].accounts[a].cashAvailable >= 0.0
      <==> opening + Sum(CashFlows(cfg.sim, a), orders) >= Sum(Reserves(cfg.sim, a, 0.0), orders)
  {
    CashTheorem(cfg, states, steps, i, a);
  }

  // ---- without the condition ---------------------------------------------------------------------

  /** What a filled submission does to the available cash. */
  lemma TradedCash(cfg: SimConfig, s: Store, id: nat, quote: Quote)
    requires AtRest(s) && id < |s.orders| && ValidQuote(quote) && quote.symbol == s.orders[id].symbol
    requires s.orders[id].status == RiskApproved
    requires Reserve(cfg, s, id, quote).Reserved? && FillPrice(s.orders[id], quote).Some?
    ensures
      var o := s.orders[id];
      var r := Submit(cfg, s, id, quote);
      && r.Ok? && r.value.1.accepted && o.accountId in s.accounts && o.accountId in r.value.0.accounts
      && r.value.0.accounts[o.accountId].cashAvailable
           == s.accounts[o.accountId].cashAvailable + CashAmount(cfg, o, FillPrice(o, quote).value)
  {
    SubmitAtRest(cfg, s, id, quote);
    SubmitShape(cfg, s, id, quote);
    AcceptedCash(cfg, s, id, quote);
    FilledCash(cfg, Accepted(cfg, s, id, quote), id, FillPrice(s.orders[id], quote).value);
    TradePrice(s.orders[id], quote);
  }

  /** Frozen by the reservation: what the limit, or else the ask, asks for. */
  lemma AcceptedCash(cfg: SimConfig, s: Store, id: nat, quote: Quote)
    requires id < |s.orders| && s.orders[id].status == RiskApproved && Reserve(cfg, s, id, quote).Reserved?
    ensures
      var o, accepted := s.orders[id], Accepted(cfg, s, id, quote);
      && accepted.orders[id] == AcceptedRow(o, id)
      && o.accountId in s.accounts && o.accountId in accepted.accounts
      && accepted.accounts[o.accountId].cashAvailable == s.accounts[o.accountId].cashAvailable
           - (if o.side == Buy then CostAt(cfg, o.quantity, Or(o.limitPrice, Ask(quote))) else 0.0)
  {
    AcceptedShape(cfg, s, id, quote);
    AcceptShape(Reserve(cfg, s, id, quote).store, id);
  }

  /** A fill gives back the reservation and takes the cost, or adds the proceeds. */
  lemma FilledCash(cfg: SimConfig, s: Store, id: nat, price: real)
    requires id < |s.orders| && s.orders[id].status == Submitted && s.orders[id].accountId in s.accounts
    ensures ApplyFill(cfg, s, id, price).Ok?
    ensures
      var o, s' := s.orders[id], ApplyFill(cfg, s, id, price).value;
      && o.accountId in s'.accounts
      && s'.accounts[o.accountId].cashAvailable == s.accounts[o.accountId].cashAvailable + CashAmount(cfg, o, price)
           + (if o.side == Buy then CostAt(cfg, o.quantity, Or(o.limitPrice, price)) else 0.0)
  {
    FillShape(cfg, s, id, price);
  }

  lemma TradePrice(o: Order, quote: Quote)
    requires FillPrice(o, quote).Some?
    ensures FillPrice(o, quote).value == if o.side == Buy then Ask(quote) else Bid(quote)
  {
  }

  /** What a filled buy leaves: solvent exactly when the fill, not the reservation,
      was affordable. */
  lemma FilledBuyIsSolventIff(cfg: SimConfig, s: Store, id: nat, quote: Quote)
    requires AtRest(s) && id < |s.orders| && ValidQuote(quote) && quote.symbol == s.orders[id].symbol
    requires s.orders[id].status == RiskApproved && s.orders[id].side == Buy
    requires Reserve(cfg, s, id, quote).Reserved? && FillPrice(s.orders[id], quote).Some?
    ensures
      var o := s.orders[id];
      var s' := Submit(cfg, s, id, quote);
      && s'.Ok? && o.accountId in s'.value.0.accounts
      && (s'.value.0.accounts[o.accountId].cashAvailable >= 0.0
          <==> s.accounts[o.accountId].cashAvailable >= CostAt(cfg, o.quantity, Ask(quote)))
  {
    TradedCash(cfg, s, id, quote);
  }

  /** What a filled sale leaves: solvent exactly when the cash there covers what the
      commission takes beyond the gross. */
  lemma FilledSaleIsSolventIff(cfg: SimConfig, s: Store, id: nat, quote: Quote)
    requires AtRest(s) && id < |s.orders| && ValidQuote(quote) && quote.symbol == s.orders[id].symbol
    requires s.orders[id].status == RiskApproved && s.orders[id].side == Sell
    requires Reserve(cfg, s, id, quote).Reserved? && FillPrice(s.orders[id], quote).Some?
    ensures
      var o, gross := s.orders[id], Amount(s.orders[id].quantity, Bid(quote));
      var s' := Submit(cfg, s, id, quote);
      && s'.Ok? && o.accountId in s'.value.0.accounts
      && (s'.value.0.accounts[o.accountId].cashAvailable >= 0.0
          <==> s.accounts[o.accountId].cashAvailable >= Commission(cfg, gross) - gross)
  {
    TradedCash(cfg, s, id, quote);
  }

  // ---- what a whole quote does to cash -----------------------------------------------------------

  /** What an order that trades at the quote adds to the available cash: a sale its
      proceeds, a buy what its reservation exceeds its cost by. */
  function CashAdded(cfg: SimConfig, quote: Quote, a: AccountId): Order -> real {
    (o: Order) =>
      if Trades(o, quote, a, Sell) then ProceedsAt(cfg, o.quantity, Bid(quote))
      else if Trades(o, quote, a, Buy) then
        CostAt(cfg, o.quantity, Or(o.limitPrice, Ask(quote))) - CostAt(cfg, o.quantity, Ask(quote))
      else 0.0
  }

  /** One resting order, matched against a quote. */
  lemma MatchCash(cfg: SimConfig, s: Store, id: nat, quote: Quote, a: AccountId)
    requires id < |s.orders| && s.orders[id].status == Submitted && s.orders[id].accountId in s.accounts
    requires s.orders[id].symbol == quote.symbol && a in s.accounts
    ensures Match(cfg, s, id, quote).Ok?
    ensures
      var s' := Match(cfg, s, id, quote).value;
      && a in s'.accounts
      && s'.accounts[a].cashAvailable == s.accounts[a].cashAvailable + CashAdded(cfg, quote, a)(s.orders[id])
  {
    var o, price := s.orders[id], FillPrice(s.orders[id], quote);
    if price.Some? {
      FillShape(cfg, s, id, price.value);
      FilledCash(cfg, s, id, price.value);
      TradePrice(o, quote);
    }
  }

  lemma {:induction false} MatchedCash(cfg: SimConfig, s: Store, quote: Quote, rows: seq<nat>, a: AccountId)
    requires AtRest(s) && ValidQuote(quote) && SomeRows(s.orders, quote.symbol, rows) && a in s.accounts
    ensures MatchRows(cfg, s, quote, rows).Ok?
    ensures
      var s' := MatchRows(cfg, s, quote, rows).value;
      && a in s'.accounts
      && s'.accounts[a].cashAvailable
           == s.accounts[a].cashAvailable + RowSum(CashAdded(cfg, quote, a), s.orders, rows)
  {
    if rows != [] {
      var last := |rows| - 1;
      MatchedCash(cfg, s, quote, rows[..last], a);
      NextRow(cfg, s, quote, rows);
      MatchCash(cfg, MatchRows(cfg, s, quote, rows[..last]).value, rows[last], quote, a);
    }
  }

  /** A quote leaves an account solvent exactly when its cash and what all its orders
      that trade at the quote add to it come to no less than zero. */
  lemma QuoteIsSolventIff(cfg: SimConfig, s: Store, quote: Quote, rows: seq<nat>, a: AccountId)
    requires AtRest(s) && ValidQuote(quote) && RestingRows(s.orders, quote.symbol, rows) && a in s.accounts
    ensures
      var r := MatchRows(cfg, s, quote, rows);
      && r.Ok? && a in r.value.accounts
      && (r.value.accounts[a].cashAvailable >= 0.0
          <==> s.accounts[a].cashAvailable + Sum(CashAdded(cfg, quote, a), s.orders) >= 0.0)
  {
    MatchedCash(cfg, s, quote, rows, a);
    AllRowsSum(cfg, s, quote, rows, CashAdded(cfg, quote, a));
  }

  /** A resting sale that a later quote fills: solvent exactly when the cash there covers
      what the commission takes beyond the gross. */
  lemma RestingSaleIsSolventIff(cfg: SimConfig, s: Store, id: nat, quote: Quote)
    requires id < |s.orders| && s.orders[id].status == Submitted && s.orders[id].accountId in s.accounts
    requires s.orders[id].symbol == quote.symbol && s.orders[id].side == Sell
    requires FillPrice(s.orders[id], quote).Some?
    ensures
      var o, gross := s.orders[id], Amount(s.orders[id].quantity, Bid(quote));
      var r := Match(cfg, s, id, quote);
      && r.Ok? && o.accountId in r.value.accounts
      && (r.value.accounts[o.accountId].cashAvailable >= 0.0
          <==> s.accounts[o.accountId].cashAvailable >= Commission(cfg, gross) - gross)
  {
    MatchCash(cfg, s, id, quote, s.orders[id].accountId);
  }
}
