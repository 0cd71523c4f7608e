/** The cash theorems over every run of the paper broker, brackets included. */
module CashRuns {
  import opened Domain
  import opened Sums
  import opened Tables
  import opened Pricing
  import opened OrderService
  import opened Risk
  import opened LocalSim
  import opened Longbridge
  import opened Executor
  import opened Runs
  import opened Cash

  // ---- the executor is made of the same operations -----------------------------------

  lemma ChildAtRest(cfg: SimConfig, s: Store, parent: Intent, orderType: OrderType,
                    price: Option<real>, reply: Reply, now: int)
    requires AtRest(s) && SubmitChild(UseSim(cfg), s, parent, orderType, price, reply, now).Ok?
    ensures Keeps(cfg, s, SubmitChild(UseSim(cfg), s, parent, orderType, price, reply, now).value.0)
  {
    if parent.side == Buy && Wanted(price) {
      var intent := parent.(side := Sell, orderType := orderType, limitPrice := price);
      CreateAtRest(cfg, s, intent, now);
      var (created, id) := CreateOrder(s, intent, now);
      ApproveAtRest(cfg, created, id, RiskApproved, BracketAutoApproved);
      var approved := Transition(created, id, RiskApproved, BracketAutoApproved).value;
      SubmitAtRest(cfg, approved, id, FlatQuote(intent.symbol, price.value));
    }
  }

  lemma MainAtRest(cfg: SimConfig, risk: RiskConfig, s: Store, req: Request, intent: Intent)
    requires AtRest(s) && SubmitMain(UseSim(cfg), risk, s, req, intent).Ok?
    ensures Keeps(cfg, s, SubmitMain(UseSim(cfg), risk, s, req, intent).value.0)
  {
    var quote := FlatQuote(intent.symbol, intent.limitPrice.value);
    var ctx := Context(Some(quote), req.marketOpen, req.now);
    CreateAtRest(cfg, s, intent, req.now);
    var (created, id) := CreateOrder(s, intent, req.now);
    RiskAtRest(cfg, risk, created, id, ctx);
    SubmitAtRest(cfg, RunRiskCheck(risk, created, id, ctx).value, id, quote);
  }

  /** Logs, notices and signals do not matter to cash. */
  lemma SameMoneyAtRest(cfg: SimConfig, s: Store, s': Store)
    requires AtRest(s) && SameBalances(s, s') && s'.orders == s.orders
    ensures Keeps(cfg, s, s')
  {
    forall k | 0 <= k < |s'.orders|
      ensures RowOk(s', s'.orders[k])
    {
      assert RowOk(s, s.orders[k]);
    }
  }

  lemma ExecuteAtRest(cfg: SimConfig, risk: RiskConfig, s: Store, req: Request)
    requires AtRest(s) && Execute(UseSim(cfg), risk, s, req).Ok?
    ensures Keeps(cfg, s, Execute(UseSim(cfg), risk, s, req).value.0)
  {
    var p := req.proposal;
    if TraceIndex(s, req.trace, req.strategy, p.symbol, 0) == |s.orders| {
      var signalled := s.(signals := s.signals + [Signal(req.trace, req.strategy, p.symbol)]);
      SameMoneyAtRest(cfg, s, signalled);
      var intent := MainIntent(req, |s.signals|);
      MainAtRest(cfg, risk, signalled, req, intent);
      var (main, id) := SubmitMain(UseSim(cfg), risk, signalled, req, intent).value;
      ChildAtRest(cfg, main, intent, LimitIfTouched, p.takeProfit, req.profitReply, req.now);
      var profit :=
        SubmitChild(UseSim(cfg), main, intent, LimitIfTouched, p.takeProfit, req.profitReply, req.now).value.0;
      ChildAtRest(cfg, profit, intent, StopLimit, p.stopLoss, req.lossReply, req.now);
      var loss := SubmitChild(UseSim(cfg), profit, intent, StopLimit, p.stopLoss, req.lossReply, req.now).value.0;
      SameMoneyAtRest(cfg, loss, Record(loss, TradeApproved, id));
    }
  }

  lemma StepAtRest(cfg: Config, s: Store, step: Step)
    requires AtRest(s) && Enabled(cfg, s, step) && IsLocal(cfg, step)
    ensures Keeps(cfg.sim, s, Apply(cfg, s, step))
  {
    if Call(cfg, s, step).Ok? {
      match step
      case StepCreate(intent, now) => CreateAtRest(cfg.sim, s, intent, now);
      case StepRisk(id, ctx) => RiskAtRest(cfg.sim, cfg.risk, s, id, ctx);
      case StepBracket(id) => ApproveAtRest(cfg.sim, s, id, RiskApproved, BracketAutoApproved);
      case StepSimSubmit(id, quote) => SubmitAtRest(cfg.sim, s, id, quote);
      case StepSimCancel(id) => CancelAtRest(cfg.sim, s, id);
      case StepSimQuote(quote, rows) => MatchRowsAtRest(cfg.sim, s, quote, rows);
      case StepExecute(broker, req) => ExecuteAtRest(cfg.sim, cfg.risk, s, req);
    }
  }

  lemma {:induction false} RunKeepsCash(cfg: Config, states: seq<Store>, steps: seq<Step>, i: nat)
    requires IsLocalRun(cfg, states, steps) && AtRest(states[0]) && i < |states|
    ensures Keeps(cfg.sim, states[0], states[i])
  {
    if i > 0 {
      RunKeepsCash(cfg, states, steps, i - 1);
      StepAtRest(cfg, states[i - 1], steps[i - 1]);
      assert states[i] == Apply(cfg, states[i - 1], steps[i - 1]);
    }
  }

  // ---- theorems --------------------------------------------------------------------------

  /** In every state of every local run, frozen cash is the sum of what the resting
      buys reserve, and the balance is the opening cash plus the ledger, which is
      the opening cash plus what the filled orders moved. */
  lemma CashTheorem(cfg: Config, states: seq<Store>, steps: seq<Step>, i: nat, a: AccountId)
    requires IsLocalRun(cfg, states, steps) && IsOpening(states[0]) && i < |states|
    requires a in states[0].accounts
    ensures a in states[i].accounts
    ensures
      var opening, s := states[0].accounts[a].cashAvailable, states[i];
      && s.accounts[a].cashFrozen == Sum(Reserves(cfg.sim, a, 0.0), s.orders)
      && Balance(s, a) == opening + Sum(LedgerAmounts(a), s.cashLedger)
      && Balance(s, a) == opening + Sum(CashFlows(cfg.sim, a), s.orders)
  {
    RunKeepsCash(cfg, states, steps, i);
    assert states[0].accounts[a].cashFrozen == 0.0;
  }

  /** In every reachable state no submission, cancellation or quote raises, and a
      resting order has the limit price its reservation is recomputed from. */
  lemma BrokerNeverRaises(cfg: Config, states: seq<Store>, steps: seq<Step>, i: nat, step: Step)
    requires IsLocalRun(cfg, states, steps) && IsOpening(states[0]) && i < |states|
    requires Enabled(cfg, states[i], step)
    requires step.StepSimSubmit? || step.StepSimCancel? || step.StepSimQuote?
    ensures Call(cfg, states[i], step).Ok?
    ensures forall k :: 0 <= k < |states[i].orders| && states[i].orders[k].status == Submitted ==>
              states[i].orders[k].limitPrice.Some?
  {
    RunKeepsCash(cfg, states, steps, i);
    var s := states[i];
    match step
    case StepSimSubmit(id, quote) => SubmitAtRest(cfg.sim, s, id, quote);
    case StepSimCancel(id) => CancelAtRest(cfg.sim, s, id);
    case StepSimQuote(quote, rows) => MatchRowsAtRest(cfg.sim, s, quote, rows);
    forall k | 0 <= k < |s.orders| && s.orders[k].status == Submitted
      ensures s.orders[k].limitPrice.Some?
    {
      assert RowOk(s, s.orders[k]);
    }
  }

  predicate SameTerms(o: Order, o': Order) {
    && o'.accountId == o.accountId && o'.symbol == o.symbol
    && o'.side == o.side && o'.orderType == o.orderType
    && o'.quantity == o.quantity && o'.limitPrice == o.limitPrice
  }

  /** Releasing gives back what reserving took. */
  lemma ReleaseUndoesReserve(cfg: SimConfig, s: Store, r: Store, id: nat, quote: Quote, a: AccountId, y: Symbol)
    requires id < |s.orders| == |r.orders| && Reserve(cfg, s, id, quote).Reserved?
    requires SameBalances(Reserve(cfg, s, id, quote).store, r)
    requires SameTerms(s.orders[id], r.orders[id])
    requires r.orders[id].limitPrice.Some? && r.orders[id].filledQuantity == 0.0
    requires Release(cfg, r, id).Ok?
    ensures Release(cfg, r, id).value.accounts == s.accounts
    ensures Held(Release(cfg, r, id).value.positions, a, y) == Held(s.positions, a, y)
  {
    if s.orders[id].side == Buy {
      BuyReleaseUndoes(cfg, s, r, id, quote);
    } else {
      SellReleaseUndoes(cfg, s, r, id, quote, a, y);
    }
  }

  lemma BuyReleaseUndoes(cfg: SimConfig, s: Store, r: Store, id: nat, quote: Quote)
    requires id < |s.orders| == |r.orders| && Reserve(cfg, s, id, quote).Reserved? && s.orders[id].side == Buy
    requires SameBalances(Reserve(cfg, s, id, quote).store, r) && SameTerms(s.orders[id], r.orders[id])
    requires r.orders[id].limitPrice.Some? && Release(cfg, r, id).Ok?
    ensures Release(cfg, r, id).value.accounts == s.accounts && Release(cfg, r, id).value.positions == s.positions
  {
    var back, a := Release(cfg, r, id).value.accounts, s.orders[id].accountId;
    assert back[a] == s.accounts[a];
    assert back == s.accounts[a := back[a]];
  }

  lemma SellReleaseUndoes(cfg: SimConfig, s: Store, r: Store, id: nat, quote: Quote, a: AccountId, y: Symbol)
    requires id < |s.orders| == |r.orders| && Reserve(cfg, s, id, quote).Reserved? && s.orders[id].side == Sell
    requires SameBalances(Reserve(cfg, s, id, quote).store, r) && SameTerms(s.orders[id], r.orders[id])
    requires r.orders[id].filledQuantity == 0.0 && Release(cfg, r, id).Ok?
    ensures Release(cfg, r, id).value.accounts == s.accounts
    ensures Held(Release(cfg, r, id).value.positions, a, y) == Held(s.positions, a, y)
  {
    var o := s.orders[id];
    if !IsBracket(o) {
      SellReserved(cfg, s, id, quote);
      SellReleased(cfg, r, id);
      TakeAndPutBack(s.positions, o.accountId, o.symbol, o.quantity, a, y);
    }
  }

  lemma SellReserved(cfg: SimConfig, s: Store, id: nat, quote: Quote)
    requires id < |s.orders| && Reserve(cfg, s, id, quote).Reserved?
    requires s.orders[id].side == Sell && !IsBracket(s.orders[id])
    ensures
      var o, s' := s.orders[id], Reserve(cfg, s, id, quote).store;
      var held := Held(s.positions, o.accountId, o.symbol);
      && s'.accounts == s.accounts
      && s'.positions == Put(s.positions, held.(availableQuantity := held.availableQuantity - o.quantity))
  {
  }

  lemma SellReleased(cfg: SimConfig, s: Store, id: nat)
    requires id < |s.orders| && Release(cfg, s, id).Ok? && s.orders[id].side == Sell && !IsBracket(s.orders[id])
    ensures
      var o, s' := s.orders[id], Release(cfg, s, id).value;
      var held, free := Held(s.positions, o.accountId, o.symbol), o.quantity - o.filledQuantity;
      && s'.accounts == s.accounts
      && s'.positions == Put(s.positions, held.(availableQuantity := held.availableQuantity + free))
  {
  }

  /** Taking shares from what is available and putting them back changes no position. */
  lemma TakeAndPutBack(rows: seq<Position>, b: AccountId, z: Symbol, quantity: real, a: AccountId, y: Symbol)
    ensures
      var held := Held(rows, b, z);
      var less := Put(rows, held.(availableQuantity := held.availableQuantity - quantity));
      var now := Held(less, b, z);
      Held(Put(less, now.(availableQuantity := now.availableQuantity + (quantity - 0.0))), a, y) == Held(rows, a, y)
  {
    var held := Held(rows, b, z);
    var less := held.(availableQuantity := held.availableQuantity - quantity);
    PutHeld(rows, less, a, y);
    PutHeld(rows, less, b, z);
    PutHeld(Put(rows, less), held, a, y);
  }

  /** Cancelling an order that came to rest undoes its submission: every account and
      every position is back to what it was. */
  lemma CancelUndoesSubmit(cfg: SimConfig, s: Store, id: nat, quote: Quote)
    requires AtRest(s) && id < |s.orders| && s.orders[id].status == RiskApproved && ValidQuote(quote)
    requires quote.symbol == s.orders[id].symbol && Reserve(cfg, s, id, quote).Reserved?
    requires FillPrice(s.orders[id], quote).None?
    ensures
      var rested := Submit(cfg, s, id, quote);
      && rested.Ok? && id < |rested.value.0.orders|
      && var back := Cancel(cfg, rested.value.0, id);
         && back.Ok?
         && back.value.0.accounts == s.accounts
         && forall a, y :: Held(back.value.0.positions, a, y) == Held(s.positions, a, y)
  {
    var o := s.orders[id];
    assert RowOk(s, o);
    PricesArePositive(o, quote);
    SubmitShape(cfg, s, id, quote);
    AcceptedAndRested(cfg, s, id, quote);
    AcceptShape(Reserve(cfg, s, id, quote).store, id);
    var rested := Accepted(cfg, s, id, quote);
    CancelAtRest(cfg, rested, id);
    CancelShape(cfg, rested, id);
    var back := Cancel(cfg, rested, id).value.0;
    var pending := SetOrder(rested, id, rested.orders[id].(status := CancelPending));
    forall a, y
      ensures back.accounts == s.accounts && Held(back.positions, a, y) == Held(s.positions, a, y)
    {
      ReleaseUndoesReserve(cfg, s, pending, id, quote, a, y);
    }
    ReleaseUndoesReserve(cfg, s, pending, id, quote, 0, 0);
  }
}
