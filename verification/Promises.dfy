/** What a caller of one operation may rely on, in any store whose book is in order;
    with the paper broker alone, also in any store at rest. */
module Promises {
  import opened Domain
  import opened Tables
  import opened Pricing
  import opened OrderService
  import opened Risk
  import opened LocalSim
  import opened Longbridge
  import opened Executor
  import opened Growth
  import opened Book
  import opened Cash
  import opened Execution
  import opened Commits
  import opened Triggers
  import opened Switches
  import opened Runs

  /** The book stays in order and nothing is erased. */
  ghost predicate Carries(s: Store, s': Store) {
    BookOk(s') && Grows(s, s')
  }

  /** No other order is touched. */
  ghost predicate OnlyRow(s: Store, s': Store, id: nat) {
    id < |s.orders| == |s'.orders| && s'.orders == s.orders[id := s'.orders[id]]
  }

  // ---- the risk check ------------------------------------------------------------------------

  /** The order is approved, and announced, if it breaks no rule; else it is rejected. */
  ghost predicate Judges(cfg: RiskConfig, s: Store, s': Store, id: nat, ctx: Context, reason: Reason)
    requires id < |s.orders| && (ctx.quote.Some? ==> ValidQuote(ctx.quote.value))
  {
    && IsVerdict(cfg, s, id, ctx, reason) && s.orders[id].status == Created && OnlyRow(s, s', id)
    && s'.orders[id].status == (if reason == Approved then RiskApproved else RiskRejected)
    && s'.outbox == (if reason == Approved then s.outbox + [OrderReadyToSubmit(id)] else s.outbox)
    && s'.audit == s.audit + [AuditRow(RiskCheckCompleted, id, Some(Created), Some(s'.orders[id].status))]
    && s'.accounts == s.accounts && s'.positions == s.positions
  }

  lemma RiskPromise(cfg: RiskConfig, s: Store, id: nat, ctx: Context)
    requires BookOk(s) && id < |s.orders| && (ctx.quote.Some? ==> ValidQuote(ctx.quote.value))
    ensures RunRiskCheck(cfg, s, id, ctx).Ok? <==> s.orders[id].status == Created
    ensures RunRiskCheck(cfg, s, id, ctx).Ok? ==>
              var s' := RunRiskCheck(cfg, s, id, ctx).value;
              Carries(s, s') && Judges(cfg, s, s', id, ctx, Check(cfg, s, id, ctx))
  {
    CheckMeans(cfg, s, id, ctx, Check(cfg, s, id, ctx));
    if RunRiskCheck(cfg, s, id, ctx).Ok? {
      RiskKeepsBook(cfg, s, id, ctx);
      RiskGrows(cfg, s, id, ctx);
      CheckedRow(cfg, s, id, ctx);
      RiskMoves(cfg, s, id, ctx);
    }
  }

  lemma RiskMoves(cfg: RiskConfig, s: Store, id: nat, ctx: Context)
    requires id < |s.orders| && (ctx.quote.Some? ==> ValidQuote(ctx.quote.value))
    requires RunRiskCheck(cfg, s, id, ctx).Ok?
    ensures
      var s', approved := RunRiskCheck(cfg, s, id, ctx).value, Check(cfg, s, id, ctx) == Approved;
      && s.orders[id].status == Created && OnlyRow(s, s', id)
      && s'.orders[id].status == (if approved then RiskApproved else RiskRejected)
      && s'.outbox == (if approved then s.outbox + [OrderReadyToSubmit(id)] else s.outbox)
      && s'.audit == s.audit + [AuditRow(RiskCheckCompleted, id, Some(Created), Some(s'.orders[id].status))]
      && s'.accounts == s.accounts && s'.positions == s.positions
  {
  }

  // ---- the paper broker ------------------------------------------------------------------------

  /** The audit rows of a submission that ends in this status. */
  function SubmitTrail(id: nat, mismatch: bool, status: OrderStatus): seq<AuditRow> {
    if status == Failed then
      [AuditRow(if mismatch then SimSymbolMismatch else SimReservationFailed, id, Some(RiskApproved), Some(Failed))]
    else
      [AuditRow(SimResourcesReserved, id, None, None),
       AuditRow(SimSubmitting, id, Some(RiskApproved), Some(Submitting)),
       AuditRow(SimSubmitted, id, Some(Submitting), Some(Submitted))]
      + (if status == Filled then
           [AuditRow(SimFilled, id, Some(Submitted), Some(Filled)), AuditRow(SimLedgerUpdated, id, None, None)]
         else [])
  }

  /** An approved order fails if it cannot be covered, trades if the quote reaches it, and
      rests otherwise; it is accepted, under its own broker id, unless it fails; it leaves
      its trail, and a fill is announced; no other order is touched.  Any other order is
      refused and nothing happens. */
  ghost predicate Submits(cfg: SimConfig, s: Store, s': Store, id: nat, quote: Quote, result: BrokerResult)
    requires id < |s.orders|
  {
    var o := s.orders[id];
    if o.status == RiskApproved then
      var row := SubmittedRow(cfg, s, id, quote.symbol, Bid(quote), Ask(quote));
      && s'.orders == s.orders[id := row]
      && s'.audit == s.audit + SubmitTrail(id, quote.symbol != o.symbol, row.status)
      && s'.outbox == s.outbox + (if row.status == Filled then [OrderFilled(id), PositionUpdated(o.accountId, o.symbol)]
                                  else [])
      && result == if row.status == Failed then BrokerResult(false, None)
                   else BrokerResult(true, Some(LocalSimId(id)))
    else result == BrokerResult(false, None) && s' == s
  }

  lemma SubmitPromise(cfg: SimConfig, s: Store, id: nat, quote: Quote)
    requires BookOk(s) && id < |s.orders| && ValidQuote(quote)
    ensures
      match Submit(cfg, s, id, quote)
      case Raised(_) => false
      case Ok((s', result)) =>
        Carries(s, s') && Submits(cfg, s, s', id, quote, result) && (AtRest(s) ==> Keeps(cfg, s, s'))
  {
    if AtRest(s) {
      SubmitAtRest(cfg, s, id, quote);
    }
    SubmitEnds(cfg, s, id, quote);
    SubmitKeepsBook(cfg, s, id, quote);
    SubmitGrows(cfg, s, id, quote);
  }

  lemma SubmitEnds(cfg: SimConfig, s: Store, id: nat, quote: Quote)
    requires id < |s.orders|
    ensures Submit(cfg, s, id, quote).Ok?
    ensures
      var (s', result) := Submit(cfg, s, id, quote).value;
      Submits(cfg, s, s', id, quote, result)
  {
    SubmitShape(cfg, s, id, quote);
    if s.orders[id].status == RiskApproved {
      SubmitTrades(cfg, s, id, quote);
      SubmitLeavesTrail(cfg, s, id, quote);
    }
  }

  lemma SubmitLeavesTrail(cfg: SimConfig, s: Store, id: nat, quote: Quote)
    requires id < |s.orders| && s.orders[id].status == RiskApproved && Submit(cfg, s, id, quote).Ok?
    ensures
      var o, (s', result) := s.orders[id], Submit(cfg, s, id, quote).value;
      var status := SubmittedRow(cfg, s, id, quote.symbol, Bid(quote), Ask(quote)).status;
      && s'.audit == s.audit + SubmitTrail(id, quote.symbol != o.symbol, status)
      && s'.outbox == s.outbox + (if status == Filled then [OrderFilled(id), PositionUpdated(o.accountId, o.symbol)]
                                  else [])
      && result == if status == Failed then BrokerResult(false, None) else BrokerResult(true, Some(LocalSimId(id)))
  {
    SubmitShape(cfg, s, id, quote);
    ReservesIff(cfg, s, id, quote);
    FillPriceIff(s.orders[id], quote);
    if quote.symbol == s.orders[id].symbol && Reserve(cfg, s, id, quote).Reserved? {
      CoveredTrail(cfg, s, id, quote);
    } else {
      RefusedTrail(s, id, if quote.symbol != s.orders[id].symbol then SimSymbolMismatch else SimReservationFailed);
    }
  }

  lemma RefusedTrail(s: Store, id: nat, event: AuditEvent)
    requires id < |s.orders| && s.orders[id].status == RiskApproved
    ensures Refuse(s, id, event).Ok? && Refuse(s, id, event).value.1 == BrokerResult(false, None)
    ensures
      var s' := Refuse(s, id, event).value.0;
      && s'.audit == s.audit + [AuditRow(event, id, Some(RiskApproved), Some(Failed))] && s'.outbox == s.outbox
  {
  }

  lemma CoveredTrail(cfg: SimConfig, s: Store, id: nat, quote: Quote)
    requires id < |s.orders| && s.orders[id].status == RiskApproved && Reserve(cfg, s, id, quote).Reserved?
    ensures
      var o, accepted, price := s.orders[id], Accepted(cfg, s, id, quote), FillPrice(s.orders[id], quote);
      if price.None? then accepted.audit == s.audit + SubmitTrail(id, false, Submitted) && accepted.outbox == s.outbox
      else
        var filled := ApplyFill(cfg, accepted, id, price.value);
        && filled.Ok? && filled.value.audit == s.audit + SubmitTrail(id, false, Filled)
        && filled.value.outbox == s.outbox + [OrderFilled(id), PositionUpdated(o.accountId, o.symbol)]
  {
    AcceptedTrail(cfg, s, id, quote);
    AcceptedShape(cfg, s, id, quote);
    if FillPrice(s.orders[id], quote).Some? {
      FillTrail(cfg, Accepted(cfg, s, id, quote), id, FillPrice(s.orders[id], quote).value);
    }
  }

  lemma AcceptedTrail(cfg: SimConfig, s: Store, id: nat, quote: Quote)
    requires id < |s.orders| && s.orders[id].status == RiskApproved && Reserve(cfg, s, id, quote).Reserved?
    ensures Accepted(cfg, s, id, quote).audit == s.audit + SubmitTrail(id, false, Submitted)
    ensures Accepted(cfg, s, id, quote).outbox == s.outbox
  {
  }

  lemma FillTrail(cfg: SimConfig, s: Store, id: nat, price: real)
    requires id < |s.orders| && s.orders[id].status == Submitted && s.orders[id].accountId in s.accounts
    ensures ApplyFill(cfg, s, id, price).Ok?
    ensures
      var s', o := ApplyFill(cfg, s, id, price).value, s.orders[id];
      && s'.audit == s.audit + [AuditRow(SimFilled, id, Some(Submitted), Some(Filled)),
                                AuditRow(SimLedgerUpdated, id, None, None)]
      && s'.outbox == s.outbox + [OrderFilled(id), PositionUpdated(o.accountId, o.symbol)]
  {
  }

  /** A resting order is cancelled, and that is audited and announced; for any other order
      nothing happens. */
  ghost predicate Cancels(s: Store, s': Store, id: nat, result: BrokerResult)
    requires id < |s.orders|
  {
    var o := s.orders[id];
    && result == BrokerResult(o.status == Submitted, o.brokerOrderId)
    && if o.status == Submitted then
         && s'.orders == s.orders[id := o.(status := Cancelled)]
         && s'.audit == s.audit + [AuditRow(SimCancelPending, id, Some(Submitted), Some(CancelPending)),
                                   AuditRow(SimResourcesReleased, id, None, None),
                                   AuditRow(SimCancelled, id, Some(CancelPending), Some(Cancelled))]
         && s'.outbox == s.outbox + [OrderCancelled(id)]
       else s' == s
  }

  lemma CancelLeavesTrail(cfg: SimConfig, s: Store, id: nat)
    requires id < |s.orders| && Cancel(cfg, s, id).Ok?
    ensures
      var (s', result) := Cancel(cfg, s, id).value;
      Cancels(s, s', id, result)
  {
    if s.orders[id].status == Submitted {
      CancelShape(cfg, s, id);
    }
  }

  /** A cancellation raises if and only if what the order tied up cannot be given back. */
  lemma CancelRaisesIff(cfg: SimConfig, s: Store, id: nat)
    requires id < |s.orders|
    ensures
      var o := s.orders[id];
      Cancel(cfg, s, id).Raised?
      <==> && o.status == Submitted
           && (|| o.accountId !in s.accounts
               || (o.side == Buy && o.limitPrice.None?)
               || (o.side == Sell && o.orderType != LimitIfTouched && o.orderType != StopLimit
                   && !HasPosition(s.positions, o.accountId, o.symbol)))
  {
    if s.orders[id].status == Submitted {
      CancelShape(cfg, s, id);
    }
  }

  lemma CancelPromise(cfg: SimConfig, s: Store, id: nat)
    requires BookOk(s) && id < |s.orders|
    ensures
      match Cancel(cfg, s, id)
      case Raised(_) => !AtRest(s)
      case Ok((s', result)) =>
        Carries(s, s') && Cancels(s, s', id, result) && (AtRest(s) ==> Keeps(cfg, s, s'))
  {
    if AtRest(s) {
      CancelAtRest(cfg, s, id);
    }
    if Cancel(cfg, s, id).Ok? {
      CancelKeepsBook(cfg, s, id);
      CancelGrows(cfg, s, id);
      CancelLeavesTrail(cfg, s, id);
    }
  }

  lemma QuotePromise(cfg: SimConfig, s: Store, quote: Quote, rows: seq<nat>)
    requires BookOk(s) && ValidQuote(quote) && RestingRows(s.orders, quote.symbol, rows)
    ensures
      match MatchRows(cfg, s, quote, rows)
      case Raised(_) => !AtRest(s)
      case Ok(s') =>
        && Carries(s, s') && (AtRest(s) ==> Keeps(cfg, s, s'))
        && Trades(s.orders, s'.orders, quote.symbol, Bid(quote), Ask(quote))
  {
    if AtRest(s) {
      MatchRowsAtRest(cfg, s, quote, rows);
    }
    if MatchRows(cfg, s, quote, rows).Ok? {
      QuoteTrades(cfg, s, quote, rows);
      MatchRowsKeepsBook(cfg, s, quote, rows);
      MatchRowsGrows(cfg, s, quote, rows);
    }
  }

  // ---- the external broker ----------------------------------------------------------------------

  /** The broker id that the gateway's answer names. */
  function ExternalKey(reply: Reply): Option<BrokerId> {
    if reply.Answered? then Some(ExternalId(reply.id)) else None
  }

  /** An approved order that may be submitted is submitted under the gateway's id, waits
      for reconciliation or has failed; no other order is touched, and otherwise no
      order at all.  What happened is audited. */
  ghost predicate Sends(cfg: LbConfig, s: Store, s': Store, id: nat, reply: Reply, result: BrokerResult)
    requires id < |s.orders|
  {
    var o := s.orders[id];
    var start, key := AuditRow(LbSubmitting, id, Some(RiskApproved), Some(Submitting)), ExternalKey(reply);
    && (o.status == RiskApproved && SwitchedOn(cfg) && reply.Answered? ==>
          && key.Some? && !BrokerIdTaken(s.orders, key.value)
          && s'.orders == s.orders[id := o.(status := Submitted, brokerOrderId := key)]
          && s'.audit == s.audit + [start, AuditRow(LbSubmitted, id, Some(Submitting), Some(Submitted))]
          && result == BrokerResult(true, key))
    && (o.status == RiskApproved && SwitchedOn(cfg) && reply.Unreachable? ==>
          && s'.orders == s.orders[id := o.(status := Reconciling)]
          && s'.audit == s.audit + [start, AuditRow(LbSubmitUnknown, id, Some(Submitting), Some(Reconciling))])
    && (o.status == RiskApproved && SwitchedOn(cfg) && reply.GatewayError? ==>
          && s'.orders == s.orders[id := o.(status := Failed)]
          && s'.audit == s.audit + [start, AuditRow(LbSubmitFailed, id, Some(Submitting), Some(Failed))])
    && (o.status == RiskApproved && !SwitchedOn(cfg) ==>
          s'.orders == s.orders && s'.audit == s.audit + [AuditRow(LbSubmissionBlocked, id, None, None)])
    && (o.status != RiskApproved ==> s' == s)
    && (o.status != RiskApproved || !SwitchedOn(cfg) || !reply.Answered? ==> result == BrokerResult(false, None))
    && SameBalances(s, s') && s'.outbox == s.outbox
  }

  lemma SendPromise(cfg: LbConfig, s: Store, id: nat, reply: Reply)
    requires BookOk(s) && id < |s.orders|
    ensures
      match LbSubmit(cfg, s, id, reply)
      case Raised(_) => reply.Answered? && BrokerIdTaken(s.orders, ExternalId(reply.id))
      case Ok((s', result)) => Carries(s, s') && Sends(cfg, s, s', id, reply, result)
  {
    AllowedIff(cfg);
    if LbSubmit(cfg, s, id, reply).Ok? {
      LbSubmitKeepsBook(cfg, s, id, reply);
      LbSubmitGrows(cfg, s, id, reply);
    }
  }

  /** An order with the broker waits for its cancellation, or for reconciliation when
      the gateway did not answer, and that is audited; for any other order nothing happens. */
  ghost predicate AsksToCancel(s: Store, s': Store, id: nat, reply: Reply, result: BrokerResult)
    requires id < |s.orders|
  {
    var o := s.orders[id];
    if o.status in {Submitted, PartiallyFilled} then
      var asked := AuditRow(LbCancelPending, id, Some(o.status), Some(CancelPending));
      && result == BrokerResult(reply.Answered?, o.brokerOrderId)
      && s'.orders == s.orders[id := o.(status := if reply.Answered? then CancelPending else Reconciling)]
      && s'.audit == s.audit + (if reply.Answered? then [asked]
                                else [asked, AuditRow(LbCancelUnresolved, id, Some(CancelPending), Some(Reconciling))])
      && SameBalances(s, s') && s'.outbox == s.outbox
    else result == BrokerResult(false, o.brokerOrderId) && s' == s
  }

  lemma AskPromise(s: Store, id: nat, reply: Reply)
    requires BookOk(s) && id < |s.orders|
    ensures
      match LbCancel(s, id, reply)
      case Raised(_) => false
      case Ok((s', result)) => Carries(s, s') && AsksToCancel(s, s', id, reply, result)
  {
    assert ViewOk(id, View(s, id));
    LbCancelKeepsBook(s, id, reply);
    LbCancelGrows(s, id, reply);
  }

  /** Orders at their end stay there, and no order but the named one is touched. */
  ghost predicate RespectsEnds(s: Store, s': Store) {
    && |s'.orders| == |s.orders|
    && forall k :: 0 <= k < |s.orders| && s.orders[k].status in {Filled, Cancelled, RiskRejected} ==>
         s'.orders[k] == s.orders[k]
  }

  /** The broker id that a push looks up; one without an id looks up the text "None". */
  predicate Names(brokerId: Option<BrokerId>, o: Order) {
    o.brokerOrderId == Some(if brokerId.Some? then brokerId.value else ExternalId("None"))
  }

  /** The push says nothing new: it names no order, no status, or the status the order has. */
  ghost predicate TellsNothing(s: Store, brokerId: Option<BrokerId>, target: Option<OrderStatus>) {
    || target.None?
    || forall k :: 0 <= k < |s.orders| && Names(brokerId, s.orders[k]) ==> s.orders[k].status == target.value
  }

  /** The order takes the pushed status, and the move is audited and announced; nothing
      else changes. */
  ghost predicate Moves(s: Store, s': Store, id: nat, target: OrderStatus)
    requires id < |s.orders|
  {
    var o := s.orders[id];
    s' == s.(orders := s.orders[id := o.(status := target)],
             audit := s.audit + [AuditRow(LbPush, id, Some(o.status), Some(target))],
             outbox := s.outbox + (match target
                                   case Filled => [OrderFilled(id)]
                                   case Cancelled => [OrderCancelled(id)]
                                   case _ => []))
  }

  /** A push that tells nothing new changes nothing; any other goes through exactly if the
      life cycle allows the move, and then the order moves. */
  ghost predicate Heeds(s: Store, s': Store, ok: bool, brokerId: Option<BrokerId>, target: Option<OrderStatus>) {
    && (TellsNothing(s, brokerId, target) ==> ok && s' == s)
    && forall k :: 0 <= k < |s.orders| && Names(brokerId, s.orders[k]) && target.Some?
                   && target.value != s.orders[k].status ==>
         && (ok <==> target.value in Transitions(s.orders[k].status))
         && (ok ==> Moves(s, s', k, target.value))
  }

  lemma PushPromise(s: Store, brokerId: Option<BrokerId>, target: Option<OrderStatus>)
    requires BookOk(s)
    ensures
      match Push(s, brokerId, target)
      case Raised(_) => Heeds(s, s, false, brokerId, target)
      case Ok(s') => Carries(s, s') && RespectsEnds(s, s') && Heeds(s, s', true, brokerId, target)
  {
    PushHeeds(s, brokerId, target);
    if Push(s, brokerId, target).Ok? {
      PushKeepsBook(s, brokerId, target);
      PushGrows(s, brokerId, target);
    }
  }

  /** In every run a push takes effect just so; one that raises is rolled back. */
  lemma PushTheorem(cfg: Config, states: seq<Store>, steps: seq<Step>, i: nat)
    requires IsRun(cfg, states, steps) && IsOpening(states[0]) && i < |steps| && steps[i].StepPush?
    ensures
      var brokerId, target := steps[i].brokerId, steps[i].target;
      Heeds(states[i], states[i + 1], Push(states[i], brokerId, target).Ok?, brokerId, target)
  {
    assert Enabled(cfg, states[i], steps[i]) && states[i + 1] == Apply(cfg, states[i], steps[i]);
    OpeningHasBook(states[0]);
    RunKeepsBook(cfg, states, steps, i);
    PushHeeds(states[i], steps[i].brokerId, steps[i].target);
  }

  lemma PushHeeds(s: Store, brokerId: Option<BrokerId>, target: Option<OrderStatus>)
    requires BookOk(s)
    ensures Heeds(s, if Push(s, brokerId, target).Ok? then Push(s, brokerId, target).value else s,
                  Push(s, brokerId, target).Ok?, brokerId, target)
  {
    var key := if brokerId.Some? then brokerId.value else ExternalId("None");
    var id := BrokerIdIndex(s.orders, key);
    forall k | 0 <= k < |s.orders| && Names(brokerId, s.orders[k])
      ensures k == id
    {
    }
  }

  // ---- the executor --------------------------------------------------------------------------------

  lemma ExecutePromise(broker: Broker, risk: RiskConfig, s: Store, req: Request)
    requires BookOk(s) && Execute(broker, risk, s, req).Ok?
    ensures
      var (s', done) := Execute(broker, risk, s, req).value;
      Carries(s, s') && if done.reused then s' == s && Reuses(s, req, done)
                       else Committed(s, s') && Places(s, s', req, done)
  {
    assert NoneWaiting(s, Some(|s.signals|));
    ExecuteKeepsBook(broker, risk, s, req);
    ExecuteGrows(broker, risk, s, req);
    ExecutionCommits(broker, risk, s, req);
  }

  /** The idempotency key: account, strategy, signal, symbol, side, quantity and limit. */
  predicate HasKey(o: Order, intent: Intent) {
    (o.accountId, o.strategy, o.signal, o.symbol, o.side, o.quantity, o.limitPrice)
    == (intent.accountId, intent.strategy, intent.signal, intent.symbol, intent.side, intent.quantity,
        intent.limitPrice)
  }

  /** The first order with the intent's key is found, or one is added behind the others that
      asks for what the intent does and has not begun. */
  ghost predicate Creates(s: Store, s': Store, id: nat, intent: Intent, now: int) {
    && (forall k :: 0 <= k < id ==> k < |s.orders| && !HasKey(s.orders[k], intent))
    && if id < |s.orders| then
         && HasKey(s.orders[id], intent) && s'.orders == s.orders
         && s'.audit == s.audit + [AuditRow(IdempotencyHit, id, Some(s.orders[id].status), Some(s.orders[id].status))]
       else
         && |s'.orders| == |s.orders| + 1 && s'.orders[..|s.orders|] == s.orders && id == |s.orders|
         && s'.audit == s.audit + [AuditRow(OrderCreated, id, None, Some(Created))]
         && var o := s'.orders[id];
            && Asks(o, intent.accountId, intent.symbol, intent.side, intent.orderType, intent.quantity,
                    intent.limitPrice)
            && o.signal == intent.signal && o.strategy == intent.strategy && o.createdAt == now
            && o.status == Created && o.filledQuantity == 0.0 && o.avgFillPrice.None? && o.brokerOrderId.None?
  }

  lemma CreatePromise(s: Store, intent: Intent, now: int)
    requires BookOk(s) && (intent.signal.Some? ==> intent.signal.value < |s.signals|)
    ensures Carries(s, CreateOrder(s, intent, now).0)
    ensures Creates(s, CreateOrder(s, intent, now).0, CreateOrder(s, intent, now).1, intent, now)
  {
    CreateKeepsBook(s, intent, now);
    CreateGrows(s, intent, now);
  }
}
