/** Exactly which steps lose basis, in terms a caller can check beforehand, and what
    that means for equity on every local run. */
module Coverage {
  import opened Domain
  import opened Tables
  import opened Pricing
  import opened OrderService
  import opened Risk
  import opened LocalSim
  import opened Executor
  import opened Runs
  import opened Cash
  import opened CashRuns
  import opened RowOrder
  import opened Execution
  import opened Commits
  import opened Acceptance
  import opened Brackets
  import opened Basis

  // ---- one fill -----------------------------------------------------------------------------------

  /** Some shares are held, but not enough for the sale. */
  predicate FallsShort(held: real, quantity: real) {
    0.0 < held < quantity
  }

  /** A fill loses basis exactly when it sells more shares than are held, and some are. */
  lemma FillLosesIff(positions: seq<Position>, o: Order, a: AccountId)
    requires Costed(positions) && NoShorts(positions)
    ensures FillTotal(LostBasis(), positions, o, a) >= 0.0
    ensures FillTotal(LostBasis(), positions, o, a) != 0.0
            <==> o.accountId == a && o.side == Sell && FallsShort(Held(positions, a, o.symbol).quantity, o.quantity)
  {
    var held := Held(positions, a, o.symbol);
    assert IsCosted(held) && held.quantity >= 0.0;
    if held.quantity < o.quantity {
      ShortAmount(o.quantity - held.quantity, held.avgCost);
    }
  }

  lemma ShortAmount(x: real, y: real)
    requires x > 0.0 && y >= 0.0
    ensures Amount(x, y) >= 0.0 && (Amount(x, y) != 0.0 <==> y > 0.0)
  {
  }

  // ---- a quote -------------------------------------------------------------------------------------

  /** The row's sale falls short of what the rows before it leave. */
  predicate RowFallsShort(orders: seq<Order>, quote: Quote, a: AccountId, held: real, rows: seq<nat>, i: nat)
    requires InRange(orders, rows) && i < |rows|
  {
    Trades(orders[rows[i]], quote, a, Sell)
    && FallsShort(After(orders, quote, a, held, rows[..i]), orders[rows[i]].quantity)
  }

  predicate SomeRowFallsShort(orders: seq<Order>, quote: Quote, a: AccountId, held: real, rows: seq<nat>)
    requires InRange(orders, rows)
  {
    rows != []
    && (|| SomeRowFallsShort(orders, quote, a, held, rows[..|rows| - 1])
        || RowFallsShort(orders, quote, a, held, rows, |rows| - 1))
  }

  lemma {:induction false} SomeRowMeans(orders: seq<Order>, quote: Quote, a: AccountId, held: real, rows: seq<nat>)
    requires InRange(orders, rows)
    ensures SomeRowFallsShort(orders, quote, a, held, rows)
            <==> exists i :: 0 <= i < |rows| && RowFallsShort(orders, quote, a, held, rows, i)
  {
    if rows != [] {
      var before := rows[..|rows| - 1];
      SomeRowMeans(orders, quote, a, held, before);
      forall i | 0 <= i < |before|
        ensures RowFallsShort(orders, quote, a, held, before, i) <==> RowFallsShort(orders, quote, a, held, rows, i)
      {
        assert before[..i] == rows[..i];
      }
    }
  }

  lemma RowLosesIff(cfg: SimConfig, s: Store, quote: Quote, rows: seq<nat>, a: AccountId)
    requires ValidConfig(cfg) && Sane(s) && Costed(s.positions) && ValidQuote(quote) && a in s.accounts
    requires SomeRows(s.orders, quote.symbol, rows) && rows != []
    ensures MatchRows(cfg, s, quote, rows[..|rows| - 1]).Ok?
    ensures
      var last, held := |rows| - 1, Held(s.positions, a, quote.symbol).quantity;
      var lost := MatchTotal(LostBasis(), MatchRows(cfg, s, quote, rows[..last]).value, rows[last], quote, a);
      lost >= 0.0 && (lost != 0.0 <==> RowFallsShort(s.orders, quote, a, held, rows, last))
  {
    var last := |rows| - 1;
    NextRow(cfg, s, quote, rows);
    RowsMove(cfg, s, quote, rows[..last], a, quote.symbol);
    MatchedQuantity(cfg, s, quote, rows[..last], a);
    var before := MatchRows(cfg, s, quote, rows[..last]).value;
    FillLosesIff(before.positions, before.orders[rows[last]], a);
  }

  lemma {:induction false} QuoteLosesIff(cfg: SimConfig, s: Store, quote: Quote, rows: seq<nat>, a: AccountId)
    requires ValidConfig(cfg) && Sane(s) && Costed(s.positions) && ValidQuote(quote) && a in s.accounts
    requires SomeRows(s.orders, quote.symbol, rows)
    ensures RowsTotal(LostBasis(), cfg, s, quote, rows, a) >= 0.0
    ensures RowsTotal(LostBasis(), cfg, s, quote, rows, a) != 0.0
            <==> SomeRowFallsShort(s.orders, quote, a, Held(s.positions, a, quote.symbol).quantity, rows)
  {
    if rows != [] {
      QuoteLosesIff(cfg, s, quote, rows[..|rows| - 1], a);
      RowLosesIff(cfg, s, quote, rows, a);
    }
  }

  // ---- an execution -----------------------------------------------------------------------------------

  /** The request sells short of what is held: itself, or through its second child. */
  predicate RequestFallsShort(s: Store, req: Request, a: AccountId) {
    var p := req.proposal;
    && req.accountId == a && FallsShort(Held(s.positions, a, p.symbol).quantity, p.quantity)
    && (p.action == SellAction || (p.action == BuyAction && Wanted(p.takeProfit) && Wanted(p.stopLoss)))
  }

  lemma ChildLosesIff(s: Store, parent: Intent, orderType: OrderType, price: Option<real>, a: AccountId)
    requires Costed(s.positions) && NoShorts(s.positions)
    ensures ChildTotal(LostBasis(), s, parent, orderType, price, a) >= 0.0
    ensures ChildTotal(LostBasis(), s, parent, orderType, price, a) != 0.0
            <==> && parent.side == Buy && Wanted(price) && parent.accountId == a
                 && FallsShort(Held(s.positions, a, parent.symbol).quantity, parent.quantity)
  {
    FillLosesIff(s.positions, NewOrder(Child(parent, orderType, price), 0), a);
  }

  /** Positions between the fills of a committed buy. */
  lemma BuyStages(cfg: SimConfig, risk: RiskConfig, s: Store, req: Request)
    requires NoneWaiting(s, Some(|s.signals|)) && Execute(UseSim(cfg), risk, s, req).Ok?
    requires TraceIndex(s, req.trace, req.strategy, req.proposal.symbol, 0) == |s.orders|
    requires req.proposal.action == BuyAction
    ensures req.proposal.quantity > 0.0
    ensures
      var p := req.proposal;
      var signalled := s.(signals := s.signals + [Signal(req.trace, req.strategy, p.symbol)]);
      var intent, held := MainIntent(req, |s.signals|), Held(s.positions, req.accountId, p.symbol).quantity;
      var main := SubmitMain(UseSim(cfg), risk, signalled, req, intent);
      && main.Ok? && Held(main.value.0.positions, req.accountId, p.symbol).quantity == held + p.quantity
      && var profit := SubmitChild(UseSim(cfg), main.value.0, intent, LimitIfTouched, p.takeProfit,
                                   req.profitReply, req.now);
         && profit.Ok?
         && Held(profit.value.0.positions, req.accountId, p.symbol).quantity
              == if Wanted(p.takeProfit) then Sold(held + p.quantity, p.quantity) else held + p.quantity
  {
    var p := req.proposal;
    var signalled := s.(signals := s.signals + [Signal(req.trace, req.strategy, p.symbol)]);
    var intent := MainIntent(req, |s.signals|);
    MainOutcome(UseSim(cfg), risk, signalled, req, intent);
    MainPosition(cfg, risk, signalled, req, intent);
    var main := SubmitMain(UseSim(cfg), risk, signalled, req, intent).value.0;
    MaybeChildPosition(cfg, main, intent, LimitIfTouched, p.takeProfit, req.profitReply, req.now);
  }

  /** The stores between the fills of a committed execution are in order. */
  lemma StagesAreSane(cfg: SimConfig, risk: RiskConfig, s: Store, req: Request, a: AccountId)
    requires ValidConfig(cfg) && Sane(s) && Costed(s.positions) && a in s.accounts
    requires NoneWaiting(s, Some(|s.signals|)) && Execute(UseSim(cfg), risk, s, req).Ok?
    requires TraceIndex(s, req.trace, req.strategy, req.proposal.symbol, 0) == |s.orders|
    ensures
      var p := req.proposal;
      var signalled := s.(signals := s.signals + [Signal(req.trace, req.strategy, p.symbol)]);
      var intent := MainIntent(req, |s.signals|);
      var main := SubmitMain(UseSim(cfg), risk, signalled, req, intent);
      && main.Ok? && Costed(main.value.0.positions) && NoShorts(main.value.0.positions)
      && var profit := SubmitChild(UseSim(cfg), main.value.0, intent, LimitIfTouched, p.takeProfit,
                                   req.profitReply, req.now);
         profit.Ok? && Costed(profit.value.0.positions) && NoShorts(profit.value.0.positions)
  {
    var p := req.proposal;
    var signalled := s.(signals := s.signals + [Signal(req.trace, req.strategy, p.symbol)]);
    SameMoneyAtRest(cfg, s, signalled);
    QuietMoves(cfg, s, signalled, a, 0);
    var intent := MainIntent(req, |s.signals|);
    MainMoves(cfg, risk, signalled, req, intent, a, 0);
    MainOutcome(UseSim(cfg), risk, signalled, req, intent);
    var main := SubmitMain(UseSim(cfg), risk, signalled, req, intent).value.0;
    ChildMoves(cfg, main, intent, LimitIfTouched, p.takeProfit, req.profitReply, req.now, a, 0);
  }

  lemma ExecutionLosesIff(cfg: SimConfig, risk: RiskConfig, s: Store, req: Request, a: AccountId)
    requires ValidConfig(cfg) && Sane(s) && Costed(s.positions) && a in s.accounts
    requires NoneWaiting(s, Some(|s.signals|)) && Execute(UseSim(cfg), risk, s, req).Ok?
    requires TraceIndex(s, req.trace, req.strategy, req.proposal.symbol, 0) == |s.orders|
    ensures ExecuteTotal(LostBasis(), cfg, risk, s, req, a) >= 0.0
    ensures ExecuteTotal(LostBasis(), cfg, risk, s, req, a) != 0.0 <==> RequestFallsShort(s, req, a)
  {
    var p := req.proposal;
    var signalled := s.(signals := s.signals + [Signal(req.trace, req.strategy, p.symbol)]);
    var intent := MainIntent(req, |s.signals|);
    StagesAreSane(cfg, risk, s, req, a);
    FillLosesIff(s.positions, NewOrder(intent, 0), a);
    var main := SubmitMain(UseSim(cfg), risk, signalled, req, intent).value.0;
    ChildLosesIff(main, intent, LimitIfTouched, p.takeProfit, a);
    var profit := SubmitChild(UseSim(cfg), main, intent, LimitIfTouched, p.takeProfit, req.profitReply, req.now);
    ChildLosesIff(profit.value.0, intent, StopLimit, p.stopLoss, a);
    if p.action == BuyAction {
      BuyStages(cfg, risk, s, req);
      assert Held(s.positions, req.accountId, p.symbol).quantity >= 0.0;
    }
  }

  // ---- every step, every run ----------------------------------------------------------------------------

  /** The step sells shares of the account short of what is held. */
  predicate StepFallsShort(cfg: Config, s: Store, step: Step, a: AccountId)
    requires Enabled(cfg, s, step)
  {
    match step
    case StepSimSubmit(id, quote) =>
      var o := s.orders[id];
      && o.status == RiskApproved && quote.symbol == o.symbol && Reserve(cfg.sim, s, id, quote).Reserved?
      && FillPrice(o, quote).Some? && o.accountId == a && o.side == Sell
      && FallsShort(Held(s.positions, a, o.symbol).quantity, o.quantity)
    case StepSimQuote(quote, rows) =>
      SomeRowFallsShort(s.orders, quote, a, Held(s.positions, a, quote.symbol).quantity, rows)
    case StepExecute(_, req) =>
      && Call(cfg, s, step).Ok? && TraceIndex(s, req.trace, req.strategy, req.proposal.symbol, 0) == |s.orders|
      && RequestFallsShort(s, req, a)
    case _ => false
  }

  lemma StepLosesIff(cfg: Config, s: Store, step: Step, a: AccountId)
    requires ValidConfig(cfg.sim) && Sane(s) && Costed(s.positions) && a in s.accounts
    requires NoneWaiting(s, Some(|s.signals|)) && Enabled(cfg, s, step) && IsLocal(cfg, step)
    ensures StepTotal(LostBasis(), cfg, s, step, a) >= 0.0
    ensures StepTotal(LostBasis(), cfg, s, step, a) != 0.0 <==> StepFallsShort(cfg, s, step, a)
  {
    match step
    case StepSimSubmit(id, quote) =>
      SubmitAtRest(cfg.sim, s, id, quote);
      FillLosesIff(s.positions, s.orders[id], a);
    case StepSimQuote(quote, rows) =>
      QuoteNeverRaises(cfg.sim, s, quote, rows);
      QuoteLosesIff(cfg.sim, s, quote, rows, a);
    case StepExecute(broker, req) =>
      if Call(cfg, s, step).Ok? && TraceIndex(s, req.trace, req.strategy, req.proposal.symbol, 0) == |s.orders| {
        ExecutionLosesIff(cfg.sim, cfg.risk, s, req, a);
      }
    case _ =>
  }

  lemma QuoteNeverRaises(cfg: SimConfig, s: Store, quote: Quote, rows: seq<nat>)
    requires AtRest(s) && ValidQuote(quote) && SomeRows(s.orders, quote.symbol, rows)
    ensures MatchRows(cfg, s, quote, rows).Ok?
  {
    MatchRowsAtRest(cfg, s, quote, rows);
  }

  lemma RunStepLosesIff(cfg: Config, states: seq<Store>, steps: seq<Step>, i: nat, a: AccountId)
    requires ValidConfig(cfg.sim) && IsLocalRun(cfg, states, steps) && IsOpening(states[0])
    requires i < |steps| && a in states[0].accounts
    ensures Enabled(cfg, states[i], steps[i]) && StepTotal(LostBasis(), cfg, states[i], steps[i], a) >= 0.0
    ensures StepTotal(LostBasis(), cfg, states[i], steps[i], a) != 0.0
            <==> StepFallsShort(cfg, states[i], steps[i], a)
  {
    assert Enabled(cfg, states[i], steps[i]) && IsLocal(cfg, steps[i]);
    RunMoves(cfg, states, steps, i, a, 0);
    RunKeepsCash(cfg, states, steps, i);
    NextSignalIsNew(cfg, states, steps, i);
    StepLosesIff(cfg, states[i], steps[i], a);
  }

  /** None of the first `i` steps sells short of what is held. */
  ghost predicate NoneFallsShort(cfg: Config, states: seq<Store>, steps: seq<Step>, i: nat, a: AccountId)
    requires IsRun(cfg, states, steps) && i <= |steps|
  {
    forall j :: 0 <= j < i ==> !StepFallsShort(cfg, states[j], steps[j], a)
  }

  lemma {:induction false} LostBasisIsZeroIff(cfg: Config, states: seq<Store>, steps: seq<Step>, i: nat, a: AccountId)
    requires ValidConfig(cfg.sim) && IsLocalRun(cfg, states, steps) && IsOpening(states[0])
    requires i <= |steps| && a in states[0].accounts
    ensures Total(LostBasis(), cfg, states, steps, i, a) >= 0.0
    ensures Total(LostBasis(), cfg, states, steps, i, a) == 0.0 <==> NoneFallsShort(cfg, states, steps, i, a)
  {
    if i > 0 {
      LostBasisIsZeroIff(cfg, states, steps, i - 1, a);
      RunStepLosesIff(cfg, states, steps, i - 1, a);
    }
  }

  /** On every local run equity is never less than opening cash plus profit, and equals
      it exactly as long as no step has sold short of a holding. */
  lemma EquityHoldsIff(cfg: Config, states: seq<Store>, steps: seq<Step>, i: nat, a: AccountId)
    requires ValidConfig(cfg.sim) && IsLocalRun(cfg, states, steps) && IsOpening(states[0])
    requires i < |states| && a in states[0].accounts
    ensures a in states[i].accounts
    ensures
      var account := states[i].accounts[a];
      var explained := states[0].accounts[a].cashAvailable + account.realizedPnl + account.unrealizedPnl;
      account.equity >= explained && (account.equity == explained <==> NoneFallsShort(cfg, states, steps, i, a))
  {
    BasisTheorem(cfg, states, steps, i, a);
    LostBasisIsZeroIff(cfg, states, steps, i, a);
  }

  // ---- a bracketed purchase ----------------------------------------------------------------------------

  lemma BuyerIsKnown(cfg: Config, states: seq<Store>, steps: seq<Step>, i: nat, req: Request)
    requires IsLocalRun(cfg, states, steps) && IsOpening(states[0]) && i < |states|
    requires Execute(UseSim(cfg.sim), cfg.risk, states[i], req).Ok?
    requires !Execute(UseSim(cfg.sim), cfg.risk, states[i], req).value.1.reused
    ensures req.accountId in states[0].accounts
  {
    PaperCommitTheorem(cfg, states, steps, i, cfg.sim, req);
    RunKeepsCash(cfg, states, steps, i);
  }

  /** In every state of every local run, a paper buy that commits keeps its purchase if
      and only if it asks for no child; with one child it leaves what was held before,
      with two it sells off as much again. */
  lemma PaperBuyTheorem(cfg: Config, states: seq<Store>, steps: seq<Step>, i: nat, req: Request)
    requires IsLocalRun(cfg, states, steps) && IsOpening(states[0]) && i < |states|
    requires Execute(UseSim(cfg.sim), cfg.risk, states[i], req).Ok? && req.proposal.action == BuyAction
    requires !Execute(UseSim(cfg.sim), cfg.risk, states[i], req).value.1.reused
    ensures
      var p, s' := req.proposal, Execute(UseSim(cfg.sim), cfg.risk, states[i], req).value.0;
      var was, now := Held(states[i].positions, req.accountId, p.symbol), Held(s'.positions, req.accountId, p.symbol);
      && (now.quantity == was.quantity + p.quantity <==> !Wanted(p.takeProfit) && !Wanted(p.stopLoss))
      && (Wanted(p.takeProfit) != Wanted(p.stopLoss) ==> now.quantity == was.quantity)
      && (Wanted(p.takeProfit) && Wanted(p.stopLoss) ==> now.quantity == Sold(was.quantity, p.quantity))
  {
    BuyerIsKnown(cfg, states, steps, i, req);
    RunMoves(cfg, states, steps, i, req.accountId, 0);
    NextSignalIsNew(cfg, states, steps, i);
    BuyIsKeptIff(cfg.sim, cfg.risk, states[i], req);
  }
}
