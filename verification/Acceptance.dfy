/** Exactly when an execution commits, with the paper and with the external broker. */
module Acceptance {
  import opened Domain
  import opened Tables
  import opened Pricing
  import opened OrderService
  import opened Risk
  import opened LocalSim
  import opened Longbridge
  import opened Executor
  import opened Cash
  import opened Execution
  import opened Runs
  import opened Book

  /** No order carries this signal. */
  ghost predicate Unused(orders: seq<Order>, signal: Option<nat>) {
    forall k :: 0 <= k < |orders| ==> orders[k].signal != signal
  }

  /** The account can cover the order at its limit. */
  predicate Affordable(cfg: SimConfig, s: Store, intent: Intent)
    requires intent.limitPrice.Some? && intent.accountId in s.accounts
  {
    var held := Held(s.positions, intent.accountId, intent.symbol);
    if intent.side == Buy then
      s.accounts[intent.accountId].cashAvailable >= CostAt(cfg, intent.quantity, intent.limitPrice.value)
    else if intent.orderType in {LimitIfTouched, StopLimit} then true
    else HasPosition(s.positions, intent.accountId, intent.symbol) && held.availableQuantity >= intent.quantity
  }

  /** A valid request that passes every risk rule and can be covered. */
  predicate MainFine(cfg: SimConfig, risk: RiskConfig, s: Store, req: Request, intent: Intent) {
    && req.proposal.action != HoldAction && ValidIntent(intent) && intent.limitPrice.Some?
    && intent.accountId in s.accounts
    && Check(risk, s.(orders := s.orders + [NewOrder(intent, req.now)]), |s.orders|,
             Context(Some(FlatQuote(intent.symbol, intent.limitPrice.value)), req.marketOpen, req.now)) == Approved
    && Affordable(cfg, s, intent)
  }

  lemma CreatedFresh(s: Store, intent: Intent, now: int)
    requires forall k :: 0 <= k < |s.orders| ==> !SameKey(s.orders[k], intent)
    ensures
      var (created, id) := CreateOrder(s, intent, now);
      && id == |s.orders| && created.orders == s.orders + [NewOrder(intent, now)]
      && created.accounts == s.accounts && created.positions == s.positions && created.signals == s.signals
  {
  }

  /** The rules read orders, accounts and positions only. */
  lemma CheckReads(risk: RiskConfig, s: Store, s': Store, id: nat, ctx: Context)
    requires id < |s.orders| && s'.orders == s.orders && s'.accounts == s.accounts && s'.positions == s.positions
    requires ctx.quote.Some? ==> ValidQuote(ctx.quote.value)
    ensures Check(risk, s', id, ctx) == Check(risk, s, id, ctx)
  {
  }

  lemma ReservesIffAffordable(cfg: SimConfig, s: Store, checked: Store, intent: Intent, id: nat)
    requires id < |checked.orders| && checked.accounts == s.accounts && checked.positions == s.positions
    requires intent.limitPrice.Some? && intent.accountId in s.accounts
    requires checked.orders[id].accountId == intent.accountId && checked.orders[id].symbol == intent.symbol
    requires checked.orders[id].side == intent.side && checked.orders[id].orderType == intent.orderType
    requires checked.orders[id].quantity == intent.quantity && checked.orders[id].limitPrice == intent.limitPrice
    ensures Reserve(cfg, checked, id, FlatQuote(intent.symbol, intent.limitPrice.value)).Reserved?
            <==> Affordable(cfg, s, intent)
  {
  }

  lemma ApprovedIff(risk: RiskConfig, s: Store, id: nat, ctx: Context)
    requires id < |s.orders| && s.orders[id].status == Created
    requires ctx.quote.Some? ==> ValidQuote(ctx.quote.value)
    ensures
      var checked := RunRiskCheck(risk, s, id, ctx);
      && checked.Ok? && |checked.value.orders| == |s.orders|
      && (checked.value.orders[id].status == RiskApproved <==> Check(risk, s, id, ctx) == Approved)
      && checked.value.positions == s.positions
  {
  }

  lemma SubmitAcceptsIff(cfg: SimConfig, s: Store, id: nat, price: real)
    requires id < |s.orders| && s.orders[id].status == RiskApproved && s.orders[id].limitPrice == Some(price)
    ensures
      var quote := FlatQuote(s.orders[id].symbol, price);
      var r := Submit(cfg, s, id, quote);
      r.Ok? && (r.value.1.accepted <==> Reserve(cfg, s, id, quote).Reserved?)
  {
    var quote := FlatQuote(s.orders[id].symbol, price);
    SimSubmitRow(cfg, s, id, price);
    SubmitShape(cfg, s, id, quote);
    if Reserve(cfg, s, id, quote).Reserved? {
      FlatQuoteFills(s.orders[id], s.orders[id].symbol, price);
      SimFilledRow(cfg, s, id, quote, price);
    } else {
      SimRefusedRow(s, id);
    }
  }

  lemma MainOkIff(cfg: SimConfig, risk: RiskConfig, s: Store, req: Request, intent: Intent)
    requires Unused(s.orders, intent.signal)
    ensures SubmitMain(UseSim(cfg), risk, s, req, intent).Ok? <==> MainFine(cfg, risk, s, req, intent)
  {
    if req.proposal.action != HoldAction && ValidIntent(intent) && intent.limitPrice.Some? {
      var price := intent.limitPrice.value;
      var ctx := Context(Some(FlatQuote(intent.symbol, price)), req.marketOpen, req.now);
      CreatedFresh(s, intent, req.now);
      var (created, id) := CreateOrder(s, intent, req.now);
      ApprovedIff(risk, created, id, ctx);
      CheckReads(risk, created, s.(orders := created.orders), id, ctx);
      CheckedRow(risk, created, id, ctx);
      var checked := RunRiskCheck(risk, created, id, ctx).value;
      if checked.orders[id].status == RiskApproved {
        SubmitAcceptsIff(cfg, checked, id, price);
        ReservesIffAffordable(cfg, s, checked, intent, id);
      }
    }
  }

  // ---- the children ------------------------------------------------------------------------

  predicate KeyTaken(orders: seq<Order>, intent: Intent) {
    exists k :: 0 <= k < |orders| && SameKey(orders[k], intent)
  }

  lemma ChildOkIff(cfg: SimConfig, s: Store, parent: Intent, orderType: OrderType, price: Option<real>, reply: Reply,
      now: int)
    requires ValidIntent(parent) && parent.side == Buy && parent.accountId in s.accounts && Wanted(price)
    requires orderType in {LimitIfTouched, StopLimit} && NoneWaiting(s, parent.signal)
    ensures SubmitChild(UseSim(cfg), s, parent, orderType, price, reply, now).Ok?
            <==> && price.value > 0.0
                 && !KeyTaken(s.orders, parent.(side := Sell, orderType := orderType, limitPrice := price))
  {
    var intent := parent.(side := Sell, orderType := orderType, limitPrice := price);
    if KeyTaken(s.orders, intent) {
      var k :| 0 <= k < |s.orders| && SameKey(s.orders[k], intent);
      KeyClashRaises(UseSim(cfg), s, parent, orderType, price, reply, now, k);
    } else if price.value > 0.0 {
      CreatedFresh(s, intent, now);
      var (created, id) := CreateOrder(s, intent, now);
      var approved := Transition(created, id, RiskApproved, BracketAutoApproved).value;
      SimSubmitRow(cfg, approved, id, price.value);
    }
  }

  /** Only the main order, a buy, carries the signal: no sell key of it is taken. */
  lemma FirstChildIsNew(s: Store, main: Store, id: nat, parent: Intent, child: Intent)
    requires Unused(s.orders, parent.signal) && Appended(s, main, id) && SameKey(main.orders[id], parent)
    requires parent.side == Buy && child.side == Sell && child.signal == parent.signal
    ensures !KeyTaken(main.orders, child)
  {
    forall k | 0 <= k < |main.orders|
      ensures !SameKey(main.orders[k], child)
    {
      assert k < |s.orders| ==> main.orders[k] == main.orders[..|s.orders|][k];
    }
  }

  /** With one child there, the other's key is taken exactly when the prices agree. */
  lemma SecondChildIsNewIff(main: Store, profit: Store, id: nat, child: Intent, other: Intent)
    requires Appended(main, profit, id) && SameKey(profit.orders[id], child) && !KeyTaken(main.orders, other)
    requires other == child.(orderType := other.orderType, limitPrice := other.limitPrice)
    ensures KeyTaken(profit.orders, other) <==> child.limitPrice == other.limitPrice
  {
    forall k | 0 <= k < |main.orders|
      ensures !SameKey(profit.orders[k], other)
    {
      assert profit.orders[k] == profit.orders[..|main.orders|][k];
    }
  }

  /** A price that asks for a child that can be placed, or for none: missing or zero. */
  predicate NotNegative(price: Option<real>) {
    price.Some? ==> price.value >= 0.0
  }

  /** Children at positive prices, and not both at the same one. */
  predicate ChildrenFine(p: Proposal) {
    p.action == BuyAction ==>
      && NotNegative(p.takeProfit) && NotNegative(p.stopLoss)
      && (p.takeProfit.Some? && p.takeProfit == p.stopLoss ==> p.takeProfit.value == 0.0)
  }

  lemma ChildrenOkIff(cfg: SimConfig, s: Store, main: Store, id: nat, parent: Intent, req: Request)
    requires Unused(s.orders, parent.signal) && Appended(s, main, id) && SameKey(main.orders[id], parent)
    requires ValidIntent(parent) && parent.side == Buy && parent.accountId in main.accounts
    requires NoneWaiting(main, parent.signal)
    ensures
      var p := req.proposal;
      var profit := SubmitChild(UseSim(cfg), main, parent, LimitIfTouched, p.takeProfit, req.profitReply, req.now);
      (profit.Ok?
       && SubmitChild(UseSim(cfg), profit.value.0, parent, StopLimit, p.stopLoss, req.lossReply, req.now).Ok?)
      <==> NotNegative(p.takeProfit) && NotNegative(p.stopLoss)
           && !(Wanted(p.takeProfit) && p.takeProfit == p.stopLoss)
  {
    var p := req.proposal;
    var up := parent.(side := Sell, orderType := LimitIfTouched, limitPrice := p.takeProfit);
    var down := parent.(side := Sell, orderType := StopLimit, limitPrice := p.stopLoss);
    FirstChildIsNew(s, main, id, parent, up);
    FirstChildIsNew(s, main, id, parent, down);
    if Wanted(p.takeProfit) {
      ChildOkIff(cfg, main, parent, LimitIfTouched, p.takeProfit, req.profitReply, req.now);
    }
    var profit := SubmitChild(UseSim(cfg), main, parent, LimitIfTouched, p.takeProfit, req.profitReply, req.now);
    if profit.Ok? && Wanted(p.stopLoss) {
      if Wanted(p.takeProfit) {
        ChildOutcome(UseSim(cfg), main, parent, LimitIfTouched, p.takeProfit, req.profitReply, req.now);
        SecondChildIsNewIff(main, profit.value.0, profit.value.1.value, up, down);
      }
      ChildOkIff(cfg, profit.value.0, parent, StopLimit, p.stopLoss, req.lossReply, req.now);
    }
  }

  /** Exactly when a new request commits with the paper broker: it is a valid buy or
      sell that passes every risk rule and can be covered at its limit, and its
      children ask for positive prices that differ. */
  lemma PaperExecutionCommitsIff(cfg: SimConfig, risk: RiskConfig, s: Store, req: Request)
    requires Unused(s.orders, Some(|s.signals|))
    requires TraceIndex(s, req.trace, req.strategy, req.proposal.symbol, 0) == |s.orders|
    ensures
      var signalled := s.(signals := s.signals + [Signal(req.trace, req.strategy, req.proposal.symbol)]);
      Execute(UseSim(cfg), risk, s, req).Ok?
      <==> MainFine(cfg, risk, signalled, req, MainIntent(req, |s.signals|)) && ChildrenFine(req.proposal)
  {
    var p := req.proposal;
    var signalled := s.(signals := s.signals + [Signal(req.trace, req.strategy, p.symbol)]);
    var intent := MainIntent(req, |s.signals|);
    MainOkIff(cfg, risk, signalled, req, intent);
    if SubmitMain(UseSim(cfg), risk, signalled, req, intent).Ok? {
      MainOutcome(UseSim(cfg), risk, signalled, req, intent);
      var (main, id) := SubmitMain(UseSim(cfg), risk, signalled, req, intent).value;
      if p.action == BuyAction {
        ChildrenOkIff(cfg, signalled, main, id, intent, req);
      }
    }
  }

  /** In a run, the signal an execution is about to add is carried by no order. */
  lemma NextSignalIsUnused(cfg: Config, states: seq<Store>, steps: seq<Step>, i: nat)
    requires IsRun(cfg, states, steps) && IsOpening(states[0]) && i < |states|
    ensures Unused(states[i].orders, Some(|states[i].signals|))
  {
    OpeningHasBook(states[0]);
    RunKeepsBook(cfg, states, steps, i);
  }

  /** In every state of every run, a request with a new trace commits with the paper
      broker if and only if it is fine. */
  lemma PaperCommitTheorem(cfg: Config, states: seq<Store>, steps: seq<Step>, i: nat, sim: SimConfig, req: Request)
    requires IsRun(cfg, states, steps) && IsOpening(states[0]) && i < |states|
    requires TraceIndex(states[i], req.trace, req.strategy, req.proposal.symbol, 0) == |states[i].orders|
    ensures
      var s := states[i];
      var signalled := s.(signals := s.signals + [Signal(req.trace, req.strategy, req.proposal.symbol)]);
      Execute(UseSim(sim), cfg.risk, s, req).Ok?
      <==> MainFine(sim, cfg.risk, signalled, req, MainIntent(req, |s.signals|)) && ChildrenFine(req.proposal)
  {
    NextSignalIsUnused(cfg, states, steps, i);
    PaperExecutionCommitsIff(sim, cfg.risk, states[i], req);
  }

  // ---- the external broker ---------------------------------------------------------------------

  /** The order's broker id after this reply. */
  function IdFrom(reply: Reply): Option<BrokerId> {
    if reply.Answered? then Some(ExternalId(reply.id)) else None
  }

  /** The gateway does not answer with an id that is taken. */
  predicate IdIsNew(orders: seq<Order>, reply: Reply) {
    reply.Answered? ==> !BrokerIdTaken(orders, ExternalId(reply.id))
  }

  lemma ExternalRow(cfg: LbConfig, s: Store, id: nat, reply: Reply)
    requires id < |s.orders| && s.orders[id].status == RiskApproved && s.orders[id].brokerOrderId.None?
    ensures
      var r := LbSubmit(cfg, s, id, reply);
      && (r.Ok? <==> SubmissionAllowed(cfg) ==> IdIsNew(s.orders, reply))
      && (r.Ok? ==>
            && OneRow(s, r.value.0, id)
            && (r.value.1.accepted <==> SubmissionAllowed(cfg) && reply.Answered?)
            && (SubmissionAllowed(cfg) ==> r.value.0.orders[id].brokerOrderId == IdFrom(reply)))
  {
  }

  predicate ExternalMainFine(cfg: LbConfig, risk: RiskConfig, s: Store, req: Request, intent: Intent) {
    && req.proposal.action != HoldAction && ValidIntent(intent) && intent.limitPrice.Some?
    && Check(risk, s.(orders := s.orders + [NewOrder(intent, req.now)]), |s.orders|,
             Context(Some(FlatQuote(intent.symbol, intent.limitPrice.value)), req.marketOpen, req.now)) == Approved
    && SubmissionAllowed(cfg) && req.mainReply.Answered? && IdIsNew(s.orders, req.mainReply)
  }

  lemma IdAfter(orders: seq<Order>, row: Order, reply: Reply)
    ensures IdIsNew(orders + [row], reply)
            <==> IdIsNew(orders, reply) && (reply.Answered? ==> row.brokerOrderId != IdFrom(reply))
  {
    if reply.Answered? {
      OneMoreId(orders, row, ExternalId(reply.id));
    }
  }

  lemma OneMoreId(orders: seq<Order>, row: Order, id: BrokerId)
    ensures BrokerIdTaken(orders + [row], id) <==> BrokerIdTaken(orders, id) || row.brokerOrderId == Some(id)
  {
    var more := orders + [row];
    if BrokerIdTaken(orders, id) {
      var k :| 0 <= k < |orders| && orders[k].brokerOrderId == Some(id);
      assert more[k] == orders[k];
    }
    assert more[|orders|] == row;
  }

  lemma ExternalMainOkIff(cfg: LbConfig, risk: RiskConfig, s: Store, req: Request, intent: Intent)
    requires Unused(s.orders, intent.signal)
    ensures SubmitMain(UseLongbridge(cfg), risk, s, req, intent).Ok? <==> ExternalMainFine(cfg, risk, s, req, intent)
    ensures
      var r := SubmitMain(UseLongbridge(cfg), risk, s, req, intent);
      r.Ok? ==>
        && r.value.1 == |s.orders| && |r.value.0.orders| == |s.orders| + 1
        && r.value.0.orders == s.orders + [r.value.0.orders[|s.orders|]]
        && r.value.0.orders[|s.orders|].brokerOrderId == IdFrom(req.mainReply)
  {
    if req.proposal.action != HoldAction && ValidIntent(intent) && intent.limitPrice.Some? {
      var ctx := Context(Some(FlatQuote(intent.symbol, intent.limitPrice.value)), req.marketOpen, req.now);
      CreatedFresh(s, intent, req.now);
      var (created, id) := CreateOrder(s, intent, req.now);
      ApprovedIff(risk, created, id, ctx);
      CheckReads(risk, created, s.(orders := created.orders), id, ctx);
      CheckedRow(risk, created, id, ctx);
      var checked := RunRiskCheck(risk, created, id, ctx).value;
      if checked.orders[id].status == RiskApproved {
        assert checked.orders == s.orders + [checked.orders[id]];
        ExternalRow(cfg, checked, id, req.mainReply);
        IdAfter(s.orders, checked.orders[id], req.mainReply);
      }
    }
  }

  /** `now` adds one row, with this key and broker id. */
  ghost predicate AddsRow(orders: seq<Order>, now: seq<Order>, intent: Intent, id: Option<BrokerId>) {
    && |now| == |orders| + 1 && now == orders + [now[|orders|]]
    && SameKey(now[|orders|], intent) && now[|orders|].brokerOrderId == id && now[|orders|].status != Created
  }

  lemma ExternalChildOkIff(cfg: LbConfig, s: Store, parent: Intent, orderType: OrderType, price: Option<real>,
      reply: Reply, now: int)
    requires ValidIntent(parent) && parent.side == Buy && SubmissionAllowed(cfg) && Wanted(price)
    requires orderType in {LimitIfTouched, StopLimit} && NoneWaiting(s, parent.signal)
    ensures
      var r := SubmitChild(UseLongbridge(cfg), s, parent, orderType, price, reply, now);
      var intent := parent.(side := Sell, orderType := orderType, limitPrice := price);
      && (r.Ok? <==> price.value > 0.0 && !KeyTaken(s.orders, intent) && IdIsNew(s.orders, reply))
      && (r.Ok? ==> AddsRow(s.orders, r.value.0.orders, intent, IdFrom(reply)))
  {
    var intent := parent.(side := Sell, orderType := orderType, limitPrice := price);
    if KeyTaken(s.orders, intent) {
      var k :| 0 <= k < |s.orders| && SameKey(s.orders[k], intent);
      KeyClashRaises(UseLongbridge(cfg), s, parent, orderType, price, reply, now, k);
    } else if price.value > 0.0 {
      CreatedFresh(s, intent, now);
      var (created, id) := CreateOrder(s, intent, now);
      var approved := Transition(created, id, RiskApproved, BracketAutoApproved).value;
      assert approved.orders == s.orders + [approved.orders[id]];
      ExternalRow(cfg, approved, id, reply);
      IdAfter(s.orders, approved.orders[id], reply);
      LbSubmitRow(cfg, approved, id, reply);
    }
  }

  /** Ids that clash neither with the orders there nor with one another. */
  predicate ChildIdsFine(orders: seq<Order>, req: Request) {
    var p := req.proposal;
    && (Wanted(p.takeProfit) ==> IdIsNew(orders, req.profitReply) && IdFrom(req.profitReply) != IdFrom(req.mainReply))
    && (Wanted(p.stopLoss) ==> IdIsNew(orders, req.lossReply) && IdFrom(req.lossReply) != IdFrom(req.mainReply))
    && (Wanted(p.takeProfit) && Wanted(p.stopLoss) && req.lossReply.Answered? ==>
          IdFrom(req.lossReply) != IdFrom(req.profitReply))
  }

  lemma ExternalChildrenOkIff(cfg: LbConfig, s: Store, main: Store, parent: Intent, req: Request)
    requires Unused(s.orders, parent.signal) && AddsRow(s.orders, main.orders, parent, IdFrom(req.mainReply))
    requires ValidIntent(parent) && parent.side == Buy && SubmissionAllowed(cfg) && req.mainReply.Answered?
    ensures
      var p := req.proposal;
      var profit :=
        SubmitChild(UseLongbridge(cfg), main, parent, LimitIfTouched, p.takeProfit, req.profitReply, req.now);
      (profit.Ok?
       && SubmitChild(UseLongbridge(cfg), profit.value.0, parent, StopLimit, p.stopLoss, req.lossReply, req.now).Ok?)
      <==> NotNegative(p.takeProfit) && NotNegative(p.stopLoss)
           && !(Wanted(p.takeProfit) && p.takeProfit == p.stopLoss) && ChildIdsFine(s.orders, req)
  {
    var p, id := req.proposal, |s.orders|;
    var up := parent.(side := Sell, orderType := LimitIfTouched, limitPrice := p.takeProfit);
    var down := parent.(side := Sell, orderType := StopLimit, limitPrice := p.stopLoss);
    FirstChildIsNew(s, main, id, parent, up);
    FirstChildIsNew(s, main, id, parent, down);
    NoneWaitsAfter(s.orders, main, parent, IdFrom(req.mainReply));
    IdAfter(s.orders, main.orders[id], req.profitReply);
    IdAfter(s.orders, main.orders[id], req.lossReply);
    if Wanted(p.takeProfit) {
      ExternalChildOkIff(cfg, main, parent, LimitIfTouched, p.takeProfit, req.profitReply, req.now);
    }
    var profit := SubmitChild(UseLongbridge(cfg), main, parent, LimitIfTouched, p.takeProfit, req.profitReply, req.now);
    if profit.Ok? && Wanted(p.stopLoss) {
      if Wanted(p.takeProfit) {
        SecondChildIsNewIff(main, profit.value.0, |main.orders|, up, down);
        NoneWaitsMore(main, profit.value.0, parent.signal, up, IdFrom(req.profitReply));
        IdAfter(main.orders, profit.value.0.orders[|main.orders|], req.lossReply);
      }
      ExternalChildOkIff(cfg, profit.value.0, parent, StopLimit, p.stopLoss, req.lossReply, req.now);
    }
  }

  lemma NoneWaitsAfter(orders: seq<Order>, main: Store, parent: Intent, id: Option<BrokerId>)
    requires Unused(orders, parent.signal) && AddsRow(orders, main.orders, parent, id)
    ensures NoneWaiting(main, parent.signal)
  {
  }

  lemma NoneWaitsMore(s: Store, s': Store, signal: Option<nat>, intent: Intent, id: Option<BrokerId>)
    requires NoneWaiting(s, signal) && AddsRow(s.orders, s'.orders, intent, id)
    ensures NoneWaiting(s', signal)
  {
  }

  /** Exactly when a new request commits with the external broker: a valid buy or sell
      that passes every risk rule, submission allowed, the gateway's answer to the main
      order a new id, and children at positive prices that differ, under ids that are
      new where the gateway answers.  What it answers to a child is otherwise free. */
  lemma ExternalExecutionCommitsIff(cfg: LbConfig, risk: RiskConfig, s: Store, req: Request)
    requires Unused(s.orders, Some(|s.signals|))
    requires TraceIndex(s, req.trace, req.strategy, req.proposal.symbol, 0) == |s.orders|
    ensures
      var signalled := s.(signals := s.signals + [Signal(req.trace, req.strategy, req.proposal.symbol)]);
      Execute(UseLongbridge(cfg), risk, s, req).Ok?
      <==> && ExternalMainFine(cfg, risk, signalled, req, MainIntent(req, |s.signals|))
           && ChildrenFine(req.proposal) && (req.proposal.action == BuyAction ==> ChildIdsFine(s.orders, req))
  {
    var p := req.proposal;
    var signalled := s.(signals := s.signals + [Signal(req.trace, req.strategy, p.symbol)]);
    var intent := MainIntent(req, |s.signals|);
    ExternalMainOkIff(cfg, risk, signalled, req, intent);
    if SubmitMain(UseLongbridge(cfg), risk, signalled, req, intent).Ok? && p.action == BuyAction {
      MainOutcome(UseLongbridge(cfg), risk, signalled, req, intent);
      var main := SubmitMain(UseLongbridge(cfg), risk, signalled, req, intent).value.0;
      ExternalChildrenOkIff(cfg, signalled, main, intent, req);
    }
  }

  /** The same, in every state of every run. */
  lemma ExternalCommitTheorem(cfg: Config, states: seq<Store>, steps: seq<Step>, i: nat, req: Request)
    requires IsRun(cfg, states, steps) && IsOpening(states[0]) && i < |states|
    requires TraceIndex(states[i], req.trace, req.strategy, req.proposal.symbol, 0) == |states[i].orders|
    ensures
      var s := states[i];
      var signalled := s.(signals := s.signals + [Signal(req.trace, req.strategy, req.proposal.symbol)]);
      Execute(UseLongbridge(cfg.lb), cfg.risk, s, req).Ok?
      <==> && ExternalMainFine(cfg.lb, cfg.risk, signalled, req, MainIntent(req, |s.signals|))
           && ChildrenFine(req.proposal) && (req.proposal.action == BuyAction ==> ChildIdsFine(s.orders, req))
  {
    NextSignalIsUnused(cfg, states, steps, i);
    ExternalExecutionCommitsIff(cfg.lb, cfg.risk, states[i], req);
  }

  // ---- an example ------------------------------------------------------------------------------

  const EXAMPLE_RULES := RiskConfig(100.0, 100.0, 10, 60, 0.1, false, None)
  const EXAMPLE_STORE := Store(map[0 := Account(100.0, 0.0, 100.0, 0.0, 0.0)], [], [], [], [], [], [], [])

  /** One share at 10 with children at 12 and 8. */
  const EXAMPLE_REQUEST :=
    Request(Proposal(BuyAction, 0, 1.0, Limit, Some(10.0), Some(12.0), Some(8.0)),
            0, 0, 0, None, 0, Unreachable, Unreachable, Unreachable)

  lemma ExamplePasses(waiting: Store)
    requires waiting.accounts == EXAMPLE_STORE.accounts && waiting.positions == []
    requires waiting.orders == [NewOrder(MainIntent(EXAMPLE_REQUEST, 0), 0)]
    ensures Check(EXAMPLE_RULES, waiting, 0, Context(Some(FlatQuote(0, 10.0)), None, 0)) == Approved
  {
    var ctx := Context(Some(FlatQuote(0, 10.0)), None, 0);
    assert CheckActivity(EXAMPLE_RULES, waiting, 0, ctx, 10.0) == Approved by {
      assert waiting.orders[..0] == [];
      assert CountSince(waiting.orders, 0, 0, DayStart(0)) == 0;
      assert Abs(10.0 - 10.0) / 10.0 == 0.0;
    }
    assert EstimatedValue(waiting.orders[0], ctx.quote) == 10.0;
  }

  /** The theorems about committed executions with both children are not empty. */
  lemma BracketedBuyCommits()
    ensures IsOpening(EXAMPLE_STORE)
    ensures
      var done := Execute(UseSim(SimConfig(0.0, 0.0)), EXAMPLE_RULES, EXAMPLE_STORE, EXAMPLE_REQUEST);
      done.Ok? && !done.value.1.reused
  {
    var cfg := SimConfig(0.0, 0.0);
    var signalled := EXAMPLE_STORE.(signals := [] + [Signal(0, 0, 0)]);
    var intent := MainIntent(EXAMPLE_REQUEST, 0);
    ExamplePasses(signalled.(orders := [] + [NewOrder(intent, 0)]));
    assert MainFine(cfg, EXAMPLE_RULES, signalled, EXAMPLE_REQUEST, intent);
    PaperExecutionCommitsIff(cfg, EXAMPLE_RULES, EXAMPLE_STORE, EXAMPLE_REQUEST);
  }
}
