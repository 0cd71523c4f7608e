/** The records of paper trades: in every run, with either broker, fills and cash ledger
    hold one row for each order that was traded, at its price and with its commission. */
module Records {
  import opened Domain
  import opened Tables
  import opened Pricing
  import opened OrderService
  import opened Risk
  import opened LocalSim
  import opened Longbridge
  import opened Executor
  import opened Runs
  import opened Cash
  import opened CashRuns
  import opened Execution
  import opened Triggers

  /** Nothing at rate zero; otherwise the larger of the rate's share and the minimum. */
  predicate IsCommission(cfg: SimConfig, gross: real, commission: real) {
    if cfg.commissionRate == 0.0 then commission == 0.0
    else
      && commission >= gross * cfg.commissionRate && commission >= cfg.minimumCommission
      && (commission == gross * cfg.commissionRate || commission == cfg.minimumCommission)
  }

  lemma CommissionIs(cfg: SimConfig, gross: real, commission: real)
    ensures IsCommission(cfg, gross, commission) <==> commission == Commission(cfg, gross)
  {
  }

  /** A traded order is filled, wholly and within its limit. */
  predicate RowPriced(o: Order) {
    if o.avgFillPrice.Some? then o.status == Filled && o.filledQuantity == o.quantity && WithinLimit(o)
    else o.filledQuantity == 0.0
  }

  /** The fill and the ledger entry of one traded order: its quantity at its price; a buy
      takes the gross and the commission from the account, a sale brings the gross less
      the commission. */
  predicate IsRecord(cfg: SimConfig, orders: seq<Order>, fill: Fill, entry: LedgerRow) {
    && fill.orderId == entry.orderId < |orders|
    && var o, gross := orders[fill.orderId], Amount(fill.quantity, fill.price);
       && o.avgFillPrice == Some(fill.price) && fill.quantity == o.quantity
       && IsCommission(cfg, gross, fill.commission)
       && entry.accountId == o.accountId
       && entry.amount == if o.side == Buy then -(gross + fill.commission) else gross - fill.commission
  }

  ghost predicate HasFill(fills: seq<Fill>, id: nat) {
    exists i :: 0 <= i < |fills| && fills[i].orderId == id
  }

  /** One fill and one ledger entry for each traded order, and no others. */
  ghost predicate RecordsOk(cfg: SimConfig, s: Store) {
    && |s.fills| == |s.cashLedger|
    && (forall k :: 0 <= k < |s.orders| ==> RowPriced(s.orders[k]))
    && (forall i :: 0 <= i < |s.fills| ==> IsRecord(cfg, s.orders, s.fills[i], s.cashLedger[i]))
    && (forall i, j :: 0 <= i < j < |s.fills| ==> s.fills[i].orderId != s.fills[j].orderId)
    && (forall k :: 0 <= k < |s.orders| && s.orders[k].avgFillPrice.Some? ==> HasFill(s.fills, k))
  }

  // ---- calls that trade nothing ------------------------------------------------------------------

  /** Only status and broker id may differ, and a filled order stays filled. */
  predicate QuietRow(o: Order, o': Order) {
    && o' == o.(status := o'.status, brokerOrderId := o'.brokerOrderId)
    && (o.status == Filled ==> o'.status == Filled)
  }

  predicate NewRow(o: Order) {
    o.avgFillPrice.None? && o.filledQuantity == 0.0
  }

  ghost predicate Quiet(s: Store, s': Store) {
    && |s.orders| <= |s'.orders| && s'.fills == s.fills && s'.cashLedger == s.cashLedger
    && (forall k :: 0 <= k < |s.orders| ==> QuietRow(s.orders[k], s'.orders[k]))
    && (forall k :: |s.orders| <= k < |s'.orders| ==> NewRow(s'.orders[k]))
  }

  lemma QuietKeeps(cfg: SimConfig, s: Store, s': Store)
    requires RecordsOk(cfg, s) && Quiet(s, s')
    ensures RecordsOk(cfg, s')
  {
    forall i | 0 <= i < |s'.fills|
      ensures IsRecord(cfg, s'.orders, s'.fills[i], s'.cashLedger[i])
    {
      assert IsRecord(cfg, s.orders, s.fills[i], s.cashLedger[i]);
      assert QuietRow(s.orders[s.fills[i].orderId], s'.orders[s.fills[i].orderId]);
    }
    forall k | 0 <= k < |s'.orders|
      ensures RowPriced(s'.orders[k])
      ensures s'.orders[k].avgFillPrice.Some? ==> HasFill(s'.fills, k)
    {
      if k < |s.orders| {
        assert QuietRow(s.orders[k], s'.orders[k]) && RowPriced(s.orders[k]);
      } else {
        assert NewRow(s'.orders[k]);
      }
    }
  }

  /** One row changes quietly, and nothing is traded. */
  lemma RowIsQuiet(s: Store, s': Store, id: nat)
    requires id < |s.orders| == |s'.orders| && s'.orders == s.orders[id := s'.orders[id]]
    requires s'.fills == s.fills && s'.cashLedger == s.cashLedger && QuietRow(s.orders[id], s'.orders[id])
    ensures Quiet(s, s')
  {
  }

  lemma TransitionIsQuiet(s: Store, id: nat, target: OrderStatus, event: AuditEvent)
    requires id < |s.orders| && Transition(s, id, target, event).Ok?
    ensures Quiet(s, Transition(s, id, target, event).value)
  {
    RowIsQuiet(s, Transition(s, id, target, event).value, id);
  }

  lemma CreateIsQuiet(s: Store, intent: Intent, now: int)
    ensures Quiet(s, CreateOrder(s, intent, now).0)
  {
  }

  lemma RiskIsQuiet(risk: RiskConfig, s: Store, id: nat, ctx: Context)
    requires id < |s.orders| && (ctx.quote.Some? ==> ValidQuote(ctx.quote.value))
    requires RunRiskCheck(risk, s, id, ctx).Ok?
    ensures Quiet(s, RunRiskCheck(risk, s, id, ctx).value)
  {
    CheckedRow(risk, s, id, ctx);
    RowIsQuiet(s, RunRiskCheck(risk, s, id, ctx).value, id);
  }

  lemma RefuseIsQuiet(s: Store, id: nat, event: AuditEvent)
    requires id < |s.orders| && s.orders[id].status == RiskApproved
    ensures Refuse(s, id, event).Ok? && Quiet(s, Refuse(s, id, event).value.0)
  {
    RowIsQuiet(s, Refuse(s, id, event).value.0, id);
  }

  lemma AcceptedIsQuiet(cfg: SimConfig, s: Store, id: nat, quote: Quote)
    requires id < |s.orders| && s.orders[id].status == RiskApproved && Reserve(cfg, s, id, quote).Reserved?
    ensures Quiet(s, Accepted(cfg, s, id, quote))
  {
    AcceptedShape(cfg, s, id, quote);
    RowIsQuiet(s, Accepted(cfg, s, id, quote), id);
  }

  lemma CancelIsQuiet(cfg: SimConfig, s: Store, id: nat)
    requires id < |s.orders| && Cancel(cfg, s, id).Ok?
    ensures Quiet(s, Cancel(cfg, s, id).value.0)
  {
    if s.orders[id].status == Submitted {
      CancelShape(cfg, s, id);
    }
    RowIsQuiet(s, Cancel(cfg, s, id).value.0, id);
  }

  lemma LbSubmitIsQuiet(cfg: LbConfig, s: Store, id: nat, reply: Reply)
    requires id < |s.orders| && LbSubmit(cfg, s, id, reply).Ok?
    ensures Quiet(s, LbSubmit(cfg, s, id, reply).value.0)
  {
    RowIsQuiet(s, LbSubmit(cfg, s, id, reply).value.0, id);
  }

  lemma LbCancelIsQuiet(s: Store, id: nat, reply: Reply)
    requires id < |s.orders| && LbCancel(s, id, reply).Ok?
    ensures Quiet(s, LbCancel(s, id, reply).value.0)
  {
    RowIsQuiet(s, LbCancel(s, id, reply).value.0, id);
  }

  lemma PushIsQuiet(s: Store, brokerId: Option<BrokerId>, target: Option<OrderStatus>)
    requires Push(s, brokerId, target).Ok?
    ensures Quiet(s, Push(s, brokerId, target).value)
  {
    var id := BrokerIdIndex(s.orders, if brokerId.Some? then brokerId.value else ExternalId("None"));
    if id < |s.orders| {
      RowIsQuiet(s, Push(s, brokerId, target).value, id);
    }
  }

  // ---- trades ------------------------------------------------------------------------------------

  /** A fill adds one record: the order's quantity at the price, the commission, and the
      cash that moved, with the available cash it leaves. */
  lemma FillRecorded(cfg: SimConfig, s: Store, id: nat, price: real)
    requires id < |s.orders| && ApplyFill(cfg, s, id, price).Ok?
    ensures
      var s', o := ApplyFill(cfg, s, id, price).value, s.orders[id];
      && |s'.fills| == |s.fills| + 1 && s'.fills[..|s.fills|] == s.fills
      && |s'.cashLedger| == |s.cashLedger| + 1 && s'.cashLedger[..|s.cashLedger|] == s.cashLedger
      && s'.fills[|s.fills|].orderId == id
      && IsRecord(cfg, s'.orders, s'.fills[|s.fills|], s'.cashLedger[|s.cashLedger|])
      && o.accountId in s'.accounts
      && s'.cashLedger[|s.cashLedger|].balanceAfter == s'.accounts[o.accountId].cashAvailable
  {
    var s', o := ApplyFill(cfg, s, id, price).value, s.orders[id];
    CommissionIs(cfg, Amount(o.quantity, price), Commission(cfg, Amount(o.quantity, price)));
    assert s'.fills == s.fills + [s'.fills[|s.fills|]];
    assert s'.cashLedger == s.cashLedger + [s'.cashLedger[|s.cashLedger|]];
  }

  /** The position after a fill, marked at the price: a buy adds its shares and its cost,
      commission included, to the basis; a sale takes its shares off, down to zero, at the
      average cost. */
  lemma FillMarks(cfg: SimConfig, s: Store, id: nat, price: real)
    requires id < |s.orders| && ApplyFill(cfg, s, id, price).Ok?
    ensures
      var o := s.orders[id];
      var was, p := Held(s.positions, o.accountId, o.symbol),
                    Held(ApplyFill(cfg, s, id, price).value.positions, o.accountId, o.symbol);
      && p.marketPrice == price && p.marketValue == Amount(p.quantity, price)
      && p.unrealizedPnl == p.marketValue - Amount(p.quantity, p.avgCost)
      && if o.side == Buy then
           && p.quantity == was.quantity + o.quantity && p.availableQuantity == was.availableQuantity + o.quantity
           && (p.quantity > 0.0 ==>
                 Amount(p.quantity, p.avgCost) == Amount(was.quantity, was.avgCost) + CostAt(cfg, o.quantity, price))
         else
           && p.availableQuantity == was.availableQuantity
           && if o.quantity < was.quantity then p.quantity == was.quantity - o.quantity && p.avgCost == was.avgCost
              else p.quantity == 0.0 && p.avgCost == 0.0
  {
    var o := s.orders[id];
    var was := Held(s.positions, o.accountId, o.symbol);
    PutHeld(s.positions, PositionAfter(cfg, was, o, price), o.accountId, o.symbol);
    if o.side == Buy && was.quantity + o.quantity > 0.0 {
      AveragingKeepsBasis(was.quantity, was.avgCost, o.quantity, CostAt(cfg, o.quantity, price));
    }
  }

  /** Only the traded row differs, and one record is added for it. */
  ghost predicate Records(cfg: SimConfig, s: Store, s': Store, id: nat, price: real) {
    && id < |s.orders| && s'.orders == s.orders[id := FilledRow(s.orders[id], price)]
    && |s'.fills| == |s.fills| + 1 && s'.fills[..|s.fills|] == s.fills
    && |s'.cashLedger| == |s.cashLedger| + 1 && s'.cashLedger[..|s.cashLedger|] == s.cashLedger
    && s'.fills[|s.fills|].orderId == id
    && IsRecord(cfg, s'.orders, s'.fills[|s.fills|], s'.cashLedger[|s.cashLedger|])
  }

  lemma FillRecords(cfg: SimConfig, s: Store, id: nat, price: real)
    requires id < |s.orders| && s.orders[id].status == Submitted && ApplyFill(cfg, s, id, price).Ok?
    ensures Records(cfg, s, ApplyFill(cfg, s, id, price).value, id, price)
  {
    FillShape(cfg, s, id, price);
    FillRecorded(cfg, s, id, price);
  }

  lemma RecordKeeps(cfg: SimConfig, s: Store, s': Store, id: nat, price: real)
    requires RecordsOk(cfg, s) && Records(cfg, s, s', id, price)
    requires s.orders[id].status == Submitted && WithinLimit(FilledRow(s.orders[id], price))
    ensures RecordsOk(cfg, s')
  {
    var n := |s.fills|;
    assert RowPriced(s.orders[id]);
    forall i | 0 <= i < n
      ensures s'.fills[i] == s.fills[i] && s'.cashLedger[i] == s.cashLedger[i]
      ensures s'.fills[i].orderId != id && IsRecord(cfg, s'.orders, s'.fills[i], s'.cashLedger[i])
    {
      assert s'.fills[..n][i] == s.fills[i] && s'.cashLedger[..n][i] == s.cashLedger[i];
      assert IsRecord(cfg, s.orders, s.fills[i], s.cashLedger[i]);
    }
    forall k | 0 <= k < |s'.orders| && s'.orders[k].avgFillPrice.Some?
      ensures HasFill(s'.fills, k)
    {
      if k == id {
        assert s'.fills[n].orderId == k;
      } else {
        var i :| 0 <= i < n && s.fills[i].orderId == k;
        assert s'.fills[i].orderId == k;
      }
    }
  }

  lemma MatchKeeps(cfg: SimConfig, s: Store, id: nat, quote: Quote)
    requires RecordsOk(cfg, s) && id < |s.orders| && s.orders[id].status == Submitted
    requires Match(cfg, s, id, quote).Ok?
    ensures RecordsOk(cfg, Match(cfg, s, id, quote).value)
  {
    FillPriceIff(s.orders[id], quote);
    if FillPrice(s.orders[id], quote).Some? {
      var price := FillPrice(s.orders[id], quote).value;
      FillRecords(cfg, s, id, price);
      RecordKeeps(cfg, s, ApplyFill(cfg, s, id, price).value, id, price);
    }
  }

  lemma {:induction false} MatchRowsKeeps(cfg: SimConfig, s: Store, quote: Quote, rows: seq<nat>)
    requires forall i :: 0 <= i < |rows| ==> rows[i] < |s.orders| && s.orders[rows[i]].status == Submitted
    requires forall i, j :: 0 <= i < j < |rows| ==> rows[i] != rows[j]
    requires RecordsOk(cfg, s) && MatchRows(cfg, s, quote, rows).Ok?
    ensures RecordsOk(cfg, MatchRows(cfg, s, quote, rows).value)
  {
    if rows != [] {
      var last := |rows| - 1;
      MatchRowsKeeps(cfg, s, quote, rows[..last]);
      MatchedRows(cfg, s, quote, rows[..last]);
      MatchKeeps(cfg, MatchRows(cfg, s, quote, rows[..last]).value, rows[last], quote);
    }
  }

  lemma SubmitKeeps(cfg: SimConfig, s: Store, id: nat, quote: Quote)
    requires RecordsOk(cfg, s) && id < |s.orders| && Submit(cfg, s, id, quote).Ok?
    ensures RecordsOk(cfg, Submit(cfg, s, id, quote).value.0)
  {
    SubmitShape(cfg, s, id, quote);
    if s.orders[id].status == RiskApproved {
      if quote.symbol != s.orders[id].symbol {
        RefuseIsQuiet(s, id, SimSymbolMismatch);
        QuietKeeps(cfg, s, Submit(cfg, s, id, quote).value.0);
      } else if Reserve(cfg, s, id, quote).Refused? {
        RefuseIsQuiet(s, id, SimReservationFailed);
        QuietKeeps(cfg, s, Submit(cfg, s, id, quote).value.0);
      } else {
        AcceptedKeeps(cfg, s, id, quote);
      }
    }
  }

  lemma AcceptedKeeps(cfg: SimConfig, s: Store, id: nat, quote: Quote)
    requires RecordsOk(cfg, s) && id < |s.orders| && s.orders[id].status == RiskApproved
    requires Reserve(cfg, s, id, quote).Reserved?
    ensures
      var accepted, price := Accepted(cfg, s, id, quote), FillPrice(s.orders[id], quote);
      && RecordsOk(cfg, accepted)
      && (price.Some? ==>
            && ApplyFill(cfg, accepted, id, price.value).Ok?
            && RecordsOk(cfg, ApplyFill(cfg, accepted, id, price.value).value))
  {
    var accepted, price := Accepted(cfg, s, id, quote), FillPrice(s.orders[id], quote);
    AcceptedIsQuiet(cfg, s, id, quote);
    QuietKeeps(cfg, s, accepted);
    AcceptedShape(cfg, s, id, quote);
    FillPriceIff(s.orders[id], quote);
    if price.Some? {
      FillShape(cfg, accepted, id, price.value);
      FillRecords(cfg, accepted, id, price.value);
      RecordKeeps(cfg, accepted, ApplyFill(cfg, accepted, id, price.value).value, id, price.value);
    }
  }

  // ---- the executor ------------------------------------------------------------------------------

  lemma SubmitViaKeeps(cfg: SimConfig, broker: Broker, s: Store, id: nat, quote: Quote, reply: Reply)
    requires broker.UseSim? ==> broker.sim == cfg
    requires RecordsOk(cfg, s) && id < |s.orders| && SubmitVia(broker, s, id, quote, reply).Ok?
    ensures RecordsOk(cfg, SubmitVia(broker, s, id, quote, reply).value.0)
  {
    match broker
    case UseSim(_) => SubmitKeeps(cfg, s, id, quote);
    case UseLongbridge(lb) =>
      LbSubmitIsQuiet(lb, s, id, reply);
      QuietKeeps(cfg, s, LbSubmit(lb, s, id, reply).value.0);
  }

  lemma MainKeeps(cfg: SimConfig, broker: Broker, risk: RiskConfig, s: Store, req: Request, intent: Intent)
    requires broker.UseSim? ==> broker.sim == cfg
    requires RecordsOk(cfg, s) && SubmitMain(broker, risk, s, req, intent).Ok?
    ensures RecordsOk(cfg, SubmitMain(broker, risk, s, req, intent).value.0)
  {
    var quote := FlatQuote(intent.symbol, intent.limitPrice.value);
    var ctx := Context(Some(quote), req.marketOpen, req.now);
    var (created, id) := CreateOrder(s, intent, req.now);
    CreateIsQuiet(s, intent, req.now);
    QuietKeeps(cfg, s, created);
    RiskIsQuiet(risk, created, id, ctx);
    var checked := RunRiskCheck(risk, created, id, ctx).value;
    QuietKeeps(cfg, created, checked);
    SubmitViaKeeps(cfg, broker, checked, id, quote, req.mainReply);
  }

  lemma ChildKeeps(cfg: SimConfig, broker: Broker, s: Store, parent: Intent, orderType: OrderType,
                   price: Option<real>, reply: Reply, now: int)
    requires broker.UseSim? ==> broker.sim == cfg
    requires RecordsOk(cfg, s) && SubmitChild(broker, s, parent, orderType, price, reply, now).Ok?
    ensures RecordsOk(cfg, SubmitChild(broker, s, parent, orderType, price, reply, now).value.0)
  {
    if parent.side == Buy && Wanted(price) {
      var intent := parent.(side := Sell, orderType := orderType, limitPrice := price);
      var (created, id) := CreateOrder(s, intent, now);
      CreateIsQuiet(s, intent, now);
      QuietKeeps(cfg, s, created);
      TransitionIsQuiet(created, id, RiskApproved, BracketAutoApproved);
      var approved := Transition(created, id, RiskApproved, BracketAutoApproved).value;
      QuietKeeps(cfg, created, approved);
      SubmitViaKeeps(cfg, broker, approved, id, FlatQuote(intent.symbol, price.value), reply);
    }
  }

  lemma ExecuteKeeps(cfg: SimConfig, broker: Broker, risk: RiskConfig, s: Store, req: Request)
    requires broker.UseSim? ==> broker.sim == cfg
    requires RecordsOk(cfg, s) && Execute(broker, risk, s, req).Ok?
    ensures RecordsOk(cfg, Execute(broker, risk, s, req).value.0)
  {
    var p := req.proposal;
    if TraceIndex(s, req.trace, req.strategy, p.symbol, 0) == |s.orders| {
      var signalled := s.(signals := s.signals + [Signal(req.trace, req.strategy, p.symbol)]);
      var intent := MainIntent(req, |s.signals|);
      QuietKeeps(cfg, s, signalled);
      MainKeeps(cfg, broker, risk, signalled, req, intent);
      var main := SubmitMain(broker, risk, signalled, req, intent).value.0;
      ChildKeeps(cfg, broker, main, intent, LimitIfTouched, p.takeProfit, req.profitReply, req.now);
      var profit := SubmitChild(broker, main, intent, LimitIfTouched, p.takeProfit, req.profitReply, req.now).value.0;
      ChildKeeps(cfg, broker, profit, intent, StopLimit, p.stopLoss, req.lossReply, req.now);
      var loss := SubmitChild(broker, profit, intent, StopLimit, p.stopLoss, req.lossReply, req.now).value.0;
      QuietKeeps(cfg, loss, Execute(broker, risk, s, req).value.0);
    }
  }

  // ---- every step, every run -----------------------------------------------------------------------

  lemma StepKeeps(cfg: Config, s: Store, step: Step)
    requires RecordsOk(cfg.sim, s) && Enabled(cfg, s, step)
    ensures RecordsOk(cfg.sim, Apply(cfg, s, step))
  {
    var s' := Apply(cfg, s, step);
    if Call(cfg, s, step).Ok? {
      match step
      case StepSimSubmit(id, quote) => SubmitKeeps(cfg.sim, s, id, quote);
      case StepSimQuote(quote, rows) => MatchRowsKeeps(cfg.sim, s, quote, rows);
      case StepExecute(broker, req) => ExecuteKeeps(cfg.sim, broker, cfg.risk, s, req);
      case _ =>
        OtherIsQuiet(cfg, s, step);
        QuietKeeps(cfg.sim, s, s');
    }
  }

  lemma OtherIsQuiet(cfg: Config, s: Store, step: Step)
    requires Enabled(cfg, s, step) && Call(cfg, s, step).Ok?
    requires !step.StepSimSubmit? && !step.StepSimQuote? && !step.StepExecute?
    ensures Quiet(s, Apply(cfg, s, step))
  {
    match step
    case StepCreate(intent, now) => CreateIsQuiet(s, intent, now);
    case StepRisk(id, ctx) => RiskIsQuiet(cfg.risk, s, id, ctx);
    case StepBracket(id) => TransitionIsQuiet(s, id, RiskApproved, BracketAutoApproved);
    case StepSimCancel(id) => CancelIsQuiet(cfg.sim, s, id);
    case StepLbSubmit(id, reply) => LbSubmitIsQuiet(cfg.lb, s, id, reply);
    case StepLbCancel(id, reply) => LbCancelIsQuiet(s, id, reply);
    case StepPush(brokerId, target) => PushIsQuiet(s, brokerId, target);
  }

  /** In every state of every run: each traded order is filled, wholly and within its
      limit, and has exactly one fill and one ledger entry, with its quantity, price,
      commission and cash; no other fill or entry is there. */
  lemma {:induction false} RecordsTheorem(cfg: Config, states: seq<Store>, steps: seq<Step>, i: nat)
    requires IsRun(cfg, states, steps) && IsOpening(states[0]) && i < |states|
    ensures RecordsOk(cfg.sim, states[i])
  {
    if i > 0 {
      RecordsTheorem(cfg, states, steps, i - 1);
      assert Enabled(cfg, states[i - 1], steps[i - 1]) && states[i] == Apply(cfg, states[i - 1], steps[i - 1]);
      StepKeeps(cfg, states[i - 1], steps[i - 1]);
    }
  }

  /** With the paper broker alone, an order is filled if and only if it has a fill. */
  lemma FilledIffRecorded(cfg: Config, states: seq<Store>, steps: seq<Step>, i: nat, k: nat)
    requires IsLocalRun(cfg, states, steps) && IsOpening(states[0]) && i < |states| && k < |states[i].orders|
    ensures states[i].orders[k].status == Filled <==> HasFill(states[i].fills, k)
  {
    RecordsTheorem(cfg, states, steps, i);
    RunKeepsCash(cfg, states, steps, i);
    assert RowOk(states[i], states[i].orders[k]) && RowPriced(states[i].orders[k]);
    if j :| 0 <= j < |states[i].fills| && states[i].fills[j].orderId == k {
      assert IsRecord(cfg.sim, states[i].orders, states[i].fills[j], states[i].cashLedger[j]);
    }
  }
}
