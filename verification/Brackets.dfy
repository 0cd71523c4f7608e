/** What a committed buy leaves in the paper broker, by the protective children it
    asked for. */
module Brackets {
  import opened Domain
  import opened Tables
  import opened Pricing
  import opened OrderService
  import opened Risk
  import opened LocalSim
  import opened Longbridge
  import opened Executor
  import opened Cash
  import opened Execution

  /** A buy or bracket order submitted at its own limit and accepted leaves exactly
      the position its fill leaves. */
  lemma FlatSubmitPosition(cfg: SimConfig, s: Store, id: nat, price: real)
    requires id < |s.orders| && s.orders[id].status == RiskApproved && s.orders[id].limitPrice == Some(price)
    requires s.orders[id].side == Buy || IsBracket(s.orders[id])
    ensures
      var o := s.orders[id];
      var r := Submit(cfg, s, id, FlatQuote(o.symbol, price));
      r.Ok? && r.value.1.accepted ==>
        Held(r.value.0.positions, o.accountId, o.symbol)
          == PositionAfter(cfg, Held(s.positions, o.accountId, o.symbol), o, price)
  {
    var o := s.orders[id];
    var quote := FlatQuote(o.symbol, price);
    SubmitShape(cfg, s, id, quote);
    FlatQuoteFills(o, o.symbol, price);
    if Reserve(cfg, s, id, quote).Reserved? {
      AcceptShape(Reserve(cfg, s, id, quote).store, id);
      AcceptedShape(cfg, s, id, quote);
      var accepted := Accepted(cfg, s, id, quote);
      FillShape(cfg, accepted, id, price);
      var held := Held(s.positions, o.accountId, o.symbol);
      PutHeld(s.positions, PositionAfter(cfg, held, accepted.orders[id], price), o.accountId, o.symbol);
    } else {
      SimRefusedRow(s, id);
    }
  }

  lemma SoldPosition(cfg: SimConfig, p: Position, o: Order, price: real)
    requires o.side == Sell
    ensures
      var left := PositionAfter(cfg, p, o, price);
      && left.availableQuantity == p.availableQuantity
      && left.quantity == if p.quantity >= o.quantity then p.quantity - o.quantity else 0.0
  {
  }

  /** An accepted sale by bracket takes its quantity off, down to zero, and leaves
      the available quantity alone. */
  lemma BracketSale(cfg: SimConfig, s: Store, id: nat, price: real)
    requires id < |s.orders| && s.orders[id].status == RiskApproved && s.orders[id].limitPrice == Some(price)
    requires IsBracket(s.orders[id]) && s.orders[id].accountId in s.accounts
    ensures
      var o := s.orders[id];
      var r := Submit(cfg, s, id, FlatQuote(o.symbol, price));
      && r.Ok?
      && var was, left := Held(s.positions, o.accountId, o.symbol), Held(r.value.0.positions, o.accountId, o.symbol);
         && left.availableQuantity == was.availableQuantity
         && left.quantity == if was.quantity >= o.quantity then was.quantity - o.quantity else 0.0
  {
    var o := s.orders[id];
    SimSubmitRow(cfg, s, id, price);
    FlatSubmitPosition(cfg, s, id, price);
    SoldPosition(cfg, Held(s.positions, o.accountId, o.symbol), o, price);
  }

  lemma MainPosition(cfg: SimConfig, risk: RiskConfig, s: Store, req: Request, intent: Intent)
    requires SubmitMain(UseSim(cfg), risk, s, req, intent).Ok? && NoneWaiting(s, intent.signal)
    requires intent.side == Buy
    ensures
      var was := Held(s.positions, intent.accountId, intent.symbol);
      var now := Held(SubmitMain(UseSim(cfg), risk, s, req, intent).value.0.positions, intent.accountId, intent.symbol);
      now.quantity == was.quantity + intent.quantity
      && now.availableQuantity == was.availableQuantity + intent.quantity
  {
    var price := intent.limitPrice.value;
    var ctx := Context(Some(FlatQuote(intent.symbol, price)), req.marketOpen, req.now);
    NewOrderAppended(s, intent, req.now);
    var (created, id) := CreateOrder(s, intent, req.now);
    CheckedRow(risk, created, id, ctx);
    CheckedPositions(risk, created, id, ctx);
    FlatSubmitPosition(cfg, RunRiskCheck(risk, created, id, ctx).value, id, price);
  }

  lemma CheckedPositions(risk: RiskConfig, s: Store, id: nat, ctx: Context)
    requires id < |s.orders| && (ctx.quote.Some? ==> ValidQuote(ctx.quote.value))
    requires RunRiskCheck(risk, s, id, ctx).Ok?
    ensures RunRiskCheck(risk, s, id, ctx).value.positions == s.positions
  {
  }

  lemma ChildPosition(cfg: SimConfig, s: Store, parent: Intent, orderType: OrderType,
                      price: Option<real>, reply: Reply, now: int)
    requires SubmitChild(UseSim(cfg), s, parent, orderType, price, reply, now).Ok?
    requires parent.side == Buy && Wanted(price) && orderType in {LimitIfTouched, StopLimit}
    requires NoneWaiting(s, parent.signal) && parent.accountId in s.accounts
    ensures
      var a, y := parent.accountId, parent.symbol;
      var was := Held(s.positions, a, y);
      var left := Held(SubmitChild(UseSim(cfg), s, parent, orderType, price, reply, now).value.0.positions, a, y);
      && left.availableQuantity == was.availableQuantity
      && left.quantity == if was.quantity >= parent.quantity then was.quantity - parent.quantity else 0.0
  {
    var intent := parent.(side := Sell, orderType := orderType, limitPrice := price);
    NewOrderAppended(s, intent, now);
    var (created, id) := CreateOrder(s, intent, now);
    var approved := Transition(created, id, RiskApproved, BracketAutoApproved).value;
    BracketSale(cfg, approved, id, price.value);
  }

  /** A child, if one is wanted. */
  lemma MaybeChildPosition(cfg: SimConfig, s: Store, parent: Intent, orderType: OrderType,
                           price: Option<real>, reply: Reply, now: int)
    requires SubmitChild(UseSim(cfg), s, parent, orderType, price, reply, now).Ok?
    requires parent.side == Buy && orderType in {LimitIfTouched, StopLimit}
    requires NoneWaiting(s, parent.signal) && parent.accountId in s.accounts
    ensures
      var was := Held(s.positions, parent.accountId, parent.symbol);
      var s' := SubmitChild(UseSim(cfg), s, parent, orderType, price, reply, now).value.0;
      var left := Held(s'.positions, parent.accountId, parent.symbol);
      && NoneWaiting(s', parent.signal) && parent.accountId in s'.accounts
      && left.availableQuantity == was.availableQuantity
      && left.quantity == if Wanted(price) then Sold(was.quantity, parent.quantity) else was.quantity
  {
    MaybeChild(UseSim(cfg), s, parent, orderType, price, reply, now);
    if Wanted(price) {
      ChildPosition(cfg, s, parent, orderType, price, reply, now);
    }
  }

  /** What a committed paper buy leaves: each child that was asked for has sold the
      purchased quantity at once, while all of the purchase stays available for sale. */
  lemma BuyLeaves(cfg: SimConfig, risk: RiskConfig, s: Store, req: Request)
    requires NoneWaiting(s, Some(|s.signals|)) && Execute(UseSim(cfg), risk, s, req).Ok?
    requires !Execute(UseSim(cfg), risk, s, req).value.1.reused && req.proposal.action == BuyAction
    ensures req.proposal.quantity > 0.0
    ensures
      var p := req.proposal;
      var was := Held(s.positions, req.accountId, p.symbol);
      var now := Held(Execute(UseSim(cfg), risk, s, req).value.0.positions, req.accountId, p.symbol);
      var bought := was.quantity + p.quantity;
      var afterProfit := if Wanted(p.takeProfit) then Sold(bought, p.quantity) else bought;
      && now.availableQuantity == was.availableQuantity + p.quantity
      && now.quantity == if Wanted(p.stopLoss) then Sold(afterProfit, p.quantity) else afterProfit
  {
    var p := req.proposal;
    var signalled := s.(signals := s.signals + [Signal(req.trace, req.strategy, p.symbol)]);
    var intent := MainIntent(req, |s.signals|);
    MainOutcome(UseSim(cfg), risk, signalled, req, intent);
    MainPosition(cfg, risk, signalled, req, intent);
    var main := SubmitMain(UseSim(cfg), risk, signalled, req, intent).value.0;
    MaybeChildPosition(cfg, main, intent, LimitIfTouched, p.takeProfit, req.profitReply, req.now);
    var profit :=
      SubmitChild(UseSim(cfg), main, intent, LimitIfTouched, p.takeProfit, req.profitReply, req.now).value.0;
    MaybeChildPosition(cfg, profit, intent, StopLimit, p.stopLoss, req.lossReply, req.now);
  }

  /** A committed paper buy keeps its purchase if and only if it asked for no child.
      One child leaves what was held before; two sell off as much again. */
  lemma BuyIsKeptIff(cfg: SimConfig, risk: RiskConfig, s: Store, req: Request)
    requires NoneWaiting(s, Some(|s.signals|)) && Execute(UseSim(cfg), risk, s, req).Ok?
    requires !Execute(UseSim(cfg), risk, s, req).value.1.reused && req.proposal.action == BuyAction
    requires Held(s.positions, req.accountId, req.proposal.symbol).quantity >= 0.0
    ensures
      var p := req.proposal;
      var was := Held(s.positions, req.accountId, p.symbol);
      var now := Held(Execute(UseSim(cfg), risk, s, req).value.0.positions, req.accountId, p.symbol);
      && (now.quantity == was.quantity + p.quantity <==> !Wanted(p.takeProfit) && !Wanted(p.stopLoss))
      && (Wanted(p.takeProfit) != Wanted(p.stopLoss) ==> now.quantity == was.quantity)
      && (Wanted(p.takeProfit) && Wanted(p.stopLoss) ==> now.quantity == Sold(was.quantity, p.quantity))
  {
    BuyLeaves(cfg, risk, s, req);
  }
}
