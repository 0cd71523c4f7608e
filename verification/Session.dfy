/** The trading database as the services change it: one field per table, each
    method a sequence of updates, each tied to the value-level operation it
    performs.  After a raise the tables are whatever the failed call left; the
    callers that own a transaction put the old tables back. */
module Sessions {
  import opened Domain
  import opened Sums
  import opened Tables
  import opened Pricing
  import opened Service = OrderService
  import opened Risk
  import Sim = LocalSim
  import Lb = Longbridge
  import Exec = Executor
  import Growth
  import Book
  import Cash
  import Commits
  import Execution
  import Promises
  import Triggers

  class Session {
    var accounts: map<AccountId, Account>
    var positions: seq<Position>
    var orders: seq<Order>
    var fills: seq<Fill>
    var cashLedger: seq<LedgerRow>
    var audit: seq<AuditRow>
    var outbox: seq<OutboxEvent>
    var signals: seq<Signal>

    /** All tables as one value. */
    function Snapshot(): Store
      reads this
    {
      Store(accounts, positions, orders, fills, cashLedger, audit, outbox, signals)
    }

    /** What every public call may rely on and keeps: audit log, outbox, broker ids and
        signals agree with the orders. */
    ghost predicate Valid()
      reads this
    {
      Book.BookOk(Snapshot())
    }

    constructor (funds: map<AccountId, Account>)
      ensures Valid() && Snapshot() == Store(funds, [], [], [], [], [], [], [])
    {
      accounts, positions, orders, fills := funds, [], [], [];
      cashLedger, audit, outbox, signals := [], [], [], [];
    }

    method Rollback(s: Store)
      modifies this
      ensures Snapshot() == s
    {
      accounts, positions, orders, fills := s.accounts, s.positions, s.orders, s.fills;
      cashLedger, audit, outbox, signals := s.cashLedger, s.audit, s.outbox, s.signals;
    }

    // ---- order service --------------------------------------------------------------

    method RecordEvent(event: AuditEvent, id: nat)
      modifies this
      ensures Snapshot() == Service.Record(old(Snapshot()), event, id)
    {
      audit := audit + [AuditRow(event, id, None, None)];
    }

    method EnqueueEvent(event: OutboxEvent)
      modifies this
      ensures Snapshot() == Service.Enqueue(old(Snapshot()), event)
    {
      outbox := outbox + [event];
    }

    method TransitionOrder(id: nat, target: OrderStatus, event: AuditEvent) returns (r: Result<()>)
      requires id < |orders|
      modifies this
      ensures match Service.Transition(old(Snapshot()), id, target, event)
        case Ok(s) => r.Ok? && Snapshot() == s
        case Raised(e) => r == Raised(e) && Snapshot() == old(Snapshot())
    {
      var previous := orders[id].status;
      if target !in Transitions(previous) {
        return Raised(InvalidOrderTransition);
      }
      orders := orders[id := orders[id].(status := target)];
      audit := audit + [AuditRow(event, id, Some(previous), Some(target))];
      return Ok(());
    }

    method FindOrCreate(intent: Intent, now: int) returns (id: nat)
      modifies this
      ensures (Snapshot(), id) == Service.CreateOrder(old(Snapshot()), intent, now)
      ensures id < |orders|
    {
      id := 0;
      while id < |orders| && !Service.SameKey(orders[id], intent)
        invariant 0 <= id <= |orders|
        invariant forall k :: 0 <= k < id ==> !Service.SameKey(orders[k], intent)
        invariant Snapshot() == old(Snapshot())
      {
        id := id + 1;
      }
      assert id == Service.KeyIndex(orders, intent);
      if id < |orders| {
        var status := Some(orders[id].status);
        audit := audit + [AuditRow(IdempotencyHit, id, status, status)];
      } else {
        orders := orders + [Service.NewOrder(intent, now)];
        audit := audit + [AuditRow(OrderCreated, id, None, Some(Created))];
      }
    }

    // ---- risk -------------------------------------------------------------------------

    /** The three counting queries of the risk engine, in one pass. */
    method CountSimilar(id: nat, dayStart: int, cooldownStart: int)
      returns (daily: nat, open: nat, recent: nat)
      requires id < |orders|
      ensures daily == CountSince(orders, id, orders[id].accountId, dayStart)
      ensures open > 0 <==> DuplicateOpen(orders, id)
      ensures recent > 0 <==> DuplicateRecent(orders, id, cooldownStart)
    {
      daily, open, recent := 0, 0, 0;
      var i := 0;
      while i < |orders|
        invariant 0 <= i <= |orders|
        invariant daily == CountSince(orders[..i], id, orders[id].accountId, dayStart)
        invariant open > 0 <==> exists k ::
          0 <= k < i && k != id && Similar(orders[id], orders[k]) && IsOpen(orders[k].status)
        invariant recent > 0 <==> exists k ::
          0 <= k < i && k != id && Similar(orders[id], orders[k]) && orders[k].createdAt >= cooldownStart
      {
        assert orders[..i + 1][..i] == orders[..i];
        if i != id {
          if orders[i].accountId == orders[id].accountId && orders[i].createdAt >= dayStart {
            daily := daily + 1;
          }
          if Similar(orders[id], orders[i]) {
            if IsOpen(orders[i].status) {
              open := open + 1;
            }
            if orders[i].createdAt >= cooldownStart {
              recent := recent + 1;
            }
          }
        }
        i := i + 1;
      }
      assert orders[..|orders|] == orders;
    }

    method FirstBroken(cfg: RiskConfig, id: nat, ctx: Context) returns (reason: Reason)
      requires id < |orders| && (ctx.quote.Some? ==> ValidQuote(ctx.quote.value))
      ensures reason == Risk.Check(cfg, Snapshot(), id, ctx)
    {
      var o := orders[id];
      if o.accountId !in accounts {
        return AccountNotFound;
      }
      if ctx.quote.Some? && ctx.quote.value.symbol != o.symbol {
        return QuoteSymbolMismatch;
      }
      if cfg.requireMarketSession && ctx.marketOpen == Some(false) {
        return MarketClosed;
      }
      var account, held := accounts[o.accountId], Held(positions, o.accountId, o.symbol);
      var value := EstimatedValue(o, ctx.quote);
      if value > cfg.maxSingleOrderValue {
        return MaxSingleOrderValueExceeded;
      }
      if o.side == Buy && account.cashAvailable < value {
        return InsufficientCash;
      }
      if o.side == Sell && held.availableQuantity < o.quantity {
        return InsufficientPosition;
      }
      if account.realizedPnl <= -cfg.maxDailyLoss {
        return DailyLossLimitExceeded;
      }
      reason := FirstBrokenLater(cfg, id, ctx, value);
    }

    method FirstBrokenLater(cfg: RiskConfig, id: nat, ctx: Context, value: real) returns (reason: Reason)
      requires id < |orders| && orders[id].accountId in accounts
      requires ctx.quote.Some? ==> ValidQuote(ctx.quote.value)
      ensures reason == Risk.CheckActivity(cfg, Snapshot(), id, ctx, value)
    {
      var o := orders[id];
      var daily, open, recent := CountSimilar(id, DayStart(ctx.now), ctx.now - cfg.cooldownSeconds);
      if daily >= cfg.maxDailyOrderCount {
        return MaxDailyOrderCountExceeded;
      }
      if o.side == Buy {
        var held := Held(positions, o.accountId, o.symbol);
        if ExceedsRatio(cfg, accounts[o.accountId].equity, held.marketValue + value) {
          return MaxPositionRatioExceeded;
        }
      }
      if o.limitPrice.Some? && ctx.quote.Some? && Deviates(cfg, o.limitPrice.value, ctx.quote.value.last) {
        return LimitPriceDeviationExceeded;
      }
      if open > 0 {
        return DuplicateOpenOrder;
      }
      if recent > 0 {
        return DuplicateOrderCooldown;
      }
      return Approved;
    }

    method JudgeOrder(cfg: RiskConfig, id: nat, ctx: Context) returns (r: Result<Reason>)
      requires id < |orders| && (ctx.quote.Some? ==> ValidQuote(ctx.quote.value))
      modifies this
      ensures match Risk.RunRiskCheck(cfg, old(Snapshot()), id, ctx)
        case Ok(s) => r == Ok(Risk.Check(cfg, old(Snapshot()), id, ctx)) && Snapshot() == s
        case Raised(e) => r == Raised(e) && Snapshot() == old(Snapshot())
    {
      var reason := FirstBroken(cfg, id, ctx);
      var moved := TransitionOrder(id, if reason == Approved then RiskApproved else RiskRejected, RiskCheckCompleted);
      if moved.Raised? {
        return Raised(moved.error);
      }
      if reason == Approved {
        EnqueueEvent(OrderReadyToSubmit(id));
      }
      return Ok(reason);
    }

    // ---- the paper broker ----------------------------------------------------------------

    method ReserveResources(cfg: SimConfig, id: nat, quote: Quote) returns (ok: bool)
      requires id < |orders|
      modifies this
      ensures match Sim.Reserve(cfg, old(Snapshot()), id, quote)
        case Reserved(s) => ok && Snapshot() == s
        case Refused => !ok && Snapshot() == old(Snapshot())
    {
      var o := orders[id];
      if o.accountId !in accounts {
        return false;
      }
      if o.side == Buy {
        var cash := ReservedCash(cfg, o, Some(quote), None);
        var account := accounts[o.accountId];
        if account.cashAvailable < cash.value {
          return false;
        }
        account := account.(cashAvailable := account.cashAvailable - cash.value);
        account := account.(cashFrozen := account.cashFrozen + cash.value);
        accounts := accounts[o.accountId := account];
      } else if !IsBracket(o) {
        var i := PositionIndex(positions, o.accountId, o.symbol);
        if i == |positions| || positions[i].availableQuantity < o.quantity {
          return false;
        }
        positions := positions[i := positions[i].(availableQuantity := positions[i].availableQuantity - o.quantity)];
      }
      RecordEvent(SimResourcesReserved, id);
      return true;
    }

    method ReleaseResources(cfg: SimConfig, id: nat) returns (r: Result<()>)
      requires id < |orders|
      modifies this
      ensures match Sim.Release(cfg, old(Snapshot()), id)
        case Ok(s) => r.Ok? && Snapshot() == s
        case Raised(e) => r == Raised(e)
    {
      var o := orders[id];
      if o.accountId !in accounts {
        return Raised(UnknownAccount);
      }
      if o.side == Buy {
        var cash := ReservedCash(cfg, o, None, None);
        if cash.Raised? {
          return Raised(cash.error);
        }
        var account := accounts[o.accountId];
        account := account.(cashFrozen := account.cashFrozen - cash.value);
        account := account.(cashAvailable := account.cashAvailable + cash.value);
        accounts := accounts[o.accountId := account];
      } else if !IsBracket(o) {
        var i := PositionIndex(positions, o.accountId, o.symbol);
        if i == |positions| {
          return Raised(MissingPosition);
        }
        var freed := o.quantity - o.filledQuantity;
        positions := positions[i := positions[i].(availableQuantity := positions[i].availableQuantity + freed)];
      }
      RecordEvent(SimResourcesReleased, id);
      return Ok(());
    }

    /** The account's totals, added up row by row. */
    method Totals(a: AccountId) returns (unrealized: real, value: real)
      ensures unrealized == Sum(Sim.UnrealizedPnls(a), positions)
      ensures value == Sum(Sim.MarketValues(a), positions)
    {
      unrealized, value := 0.0, 0.0;
      var i := 0;
      while i < |positions|
        invariant 0 <= i <= |positions|
        invariant unrealized == Sum(Sim.UnrealizedPnls(a), positions[..i])
        invariant value == Sum(Sim.MarketValues(a), positions[..i])
      {
        assert positions[..i + 1] == positions[..i] + [positions[i]];
        SumAppend(Sim.UnrealizedPnls(a), positions[..i], positions[i]);
        SumAppend(Sim.MarketValues(a), positions[..i], positions[i]);
        if positions[i].accountId == a {
          unrealized := unrealized + positions[i].unrealizedPnl;
          value := value + positions[i].marketValue;
        }
        i := i + 1;
      }
      assert positions[..|positions|] == positions;
    }

    /** The position of an order, created with zero shares at its first fill. */
    method GetOrCreatePosition(a: AccountId, y: Symbol) returns (i: nat)
      modifies this`positions
      ensures i == PositionIndex(old(positions), a, y) == PositionIndex(positions, a, y) < |positions|
      ensures positions == Put(old(positions), Held(old(positions), a, y))
      ensures positions[i] == Held(old(positions), a, y)
    {
      i := PositionIndex(positions, a, y);
      if i == |positions| {
        positions := positions + [NoPosition(a, y)];
        assert positions[i].accountId == a && positions[i].symbol == y;
      } else {
        assert positions == positions[i := positions[i]];
      }
    }

    /** A bought position and the cash it cost; commission is part of the cost. */
    static method SettleBuy(cfg: SimConfig, was: Account, held: Position, o: Order, price: real)
      returns (account: Account, p: Position, amount: real)
      requires o.side == Buy
      ensures account == Sim.CashAfter(cfg, was, held, o, price)
      ensures p == Sim.BoughtInto(held, o.quantity, CostAt(cfg, o.quantity, price))
      ensures amount == Sim.CashAmount(cfg, o, price)
    {
      var reserved := ReservedCash(cfg, o, None, Some(price)).value;
      var cost := Amount(o.quantity, price) + Commission(cfg, Amount(o.quantity, price));
      account := was.(cashFrozen := was.cashFrozen - reserved,
                      cashAvailable := was.cashAvailable + (reserved - cost));
      p := held.(avgCost := WeightedAvgCost(held.quantity, held.avgCost, o.quantity, cost));
      p := p.(quantity := p.quantity + o.quantity);
      p := p.(availableQuantity := p.availableQuantity + o.quantity);
      amount := -cost;
    }

    /** A sold position, its proceeds and the profit at average cost. */
    static method SettleSell(cfg: SimConfig, was: Account, held: Position, o: Order, price: real)
      returns (account: Account, p: Position, amount: real)
      requires o.side == Sell
      ensures account == Sim.CashAfter(cfg, was, held, o, price)
      ensures p == Sim.SoldFrom(held, o.quantity)
      ensures amount == Sim.CashAmount(cfg, o, price)
    {
      var commission := Commission(cfg, Amount(o.quantity, price));
      amount := Amount(o.quantity, price) - commission;
      var profit := Amount(o.quantity, price - held.avgCost) - commission;
      account := was.(cashAvailable := was.cashAvailable + amount, realizedPnl := was.realizedPnl + profit);
      p := held.(quantity := held.quantity - o.quantity);
      if p.quantity <= 0.0 {
        p := p.(quantity := 0.0, avgCost := 0.0);
      }
    }

    static method SettleTrade(cfg: SimConfig, was: Account, held: Position, o: Order, price: real)
      returns (account: Account, p: Position, amount: real)
      ensures account == Sim.CashAfter(cfg, was, held, o, price)
      ensures Sim.MarkTo(p, price) == Sim.PositionAfter(cfg, held, o, price)
      ensures amount == Sim.CashAmount(cfg, o, price)
    {
      if o.side == Buy {
        account, p, amount := SettleBuy(cfg, was, held, o, price);
      } else {
        account, p, amount := SettleSell(cfg, was, held, o, price);
      }
    }

    /** Write a traded position and account back, revalued at the fill price. */
    method Revalue(a: AccountId, i: nat, traded: Position, account: Account, price: real)
      requires i < |positions|
      modifies this`positions, this`accounts
      ensures positions == old(positions)[i := Sim.MarkTo(traded, price)]
      ensures accounts == old(accounts)[a := Sim.Revalued(account, a, positions)]
    {
      var p := traded.(marketPrice := price);
      p := p.(marketValue := Amount(p.quantity, price));
      p := p.(unrealizedPnl := p.marketValue - Amount(p.quantity, p.avgCost));
      assert p == Sim.MarkTo(traded, price);
      positions := positions[i := p];
      var unrealized, value := Totals(a);
      accounts := accounts[a := account.(
        unrealizedPnl := unrealized,
        equity := account.cashAvailable + account.cashFrozen + value)];
    }

    /** Settle one fill: cash, position, order, totals, ledger. */
    method SettleFill(cfg: SimConfig, id: nat, price: real)
      requires id < |orders| && orders[id].accountId in accounts
      modifies this
      ensures Snapshot() == Sim.Settle(cfg, old(Snapshot()), id, price)
    {
      var o := orders[id];
      fills := fills + [Fill(id, o.quantity, price, Commission(cfg, Amount(o.quantity, price)))];
      var i := GetOrCreatePosition(o.accountId, o.symbol);
      var account, p, amount := SettleTrade(cfg, accounts[o.accountId], positions[i], o, price);
      Revalue(o.accountId, i, p, account, price);
      assert positions == Put(old(positions), Sim.MarkTo(p, price));
      orders := orders[id := o.(filledQuantity := o.quantity, avgFillPrice := Some(price))];
      cashLedger := cashLedger + [LedgerRow(o.accountId, id, amount, account.cashAvailable)];
    }

    method ApplyFill(cfg: SimConfig, id: nat, price: real) returns (r: Result<()>)
      requires id < |orders|
      modifies this
      ensures match Sim.ApplyFill(cfg, old(Snapshot()), id, price)
        case Ok(s) => r.Ok? && Snapshot() == s
        case Raised(e) => r == Raised(e)
    {
      var o := orders[id];
      if o.accountId !in accounts {
        return Raised(UnknownAccount);
      }
      SettleFill(cfg, id, price);
      r := TransitionOrder(id, Filled, SimFilled);
      if r.Ok? {
        RecordEvent(SimLedgerUpdated, id);
        EnqueueEvent(OrderFilled(id));
        EnqueueEvent(PositionUpdated(o.accountId, o.symbol));
      }
    }

    method RefuseOrder(id: nat, event: AuditEvent) returns (r: Result<Sim.BrokerResult>)
      requires id < |orders|
      modifies this
      ensures match Sim.Refuse(old(Snapshot()), id, event)
        case Ok((s, result)) => r == Ok(result) && Snapshot() == s
        case Raised(e) => r == Raised(e)
    {
      var moved := TransitionOrder(id, Failed, event);
      r := if moved.Ok? then Ok(Sim.BrokerResult(false, None)) else Raised(moved.error);
    }

    method AcceptOrder(id: nat) returns (r: Result<()>)
      requires id < |orders|
      modifies this
      ensures match Sim.Accept(old(Snapshot()), id)
        case Ok(s) => r.Ok? && Snapshot() == s
        case Raised(e) => r == Raised(e)
    {
      r := TransitionOrder(id, Submitting, SimSubmitting);
      if r.Ok? {
        orders := orders[id := orders[id].(brokerOrderId := Some(LocalSimId(id)))];
        r := TransitionOrder(id, Submitted, SimSubmitted);
      }
    }

    method MatchOrder(cfg: SimConfig, id: nat, quote: Quote) returns (r: Result<()>)
      requires id < |orders|
      modifies this
      ensures match Sim.Match(cfg, old(Snapshot()), id, quote)
        case Ok(s) => r.Ok? && Snapshot() == s
        case Raised(e) => r == Raised(e)
    {
      var price := FillPrice(orders[id], quote);
      if price.None? {
        return Ok(());
      }
      r := ApplyFill(cfg, id, price.value);
    }

    method PlaceOrder(cfg: SimConfig, id: nat, quote: Quote) returns (r: Result<Sim.BrokerResult>)
      requires id < |orders|
      modifies this
      ensures match Sim.Submit(cfg, old(Snapshot()), id, quote)
        case Ok((s, result)) => r == Ok(result) && Snapshot() == s
        case Raised(e) => r == Raised(e)
    {
      if orders[id].status != RiskApproved {
        return Ok(Sim.BrokerResult(false, None));
      }
      if quote.symbol != orders[id].symbol {
        r := RefuseOrder(id, SimSymbolMismatch);
        return;
      }
      var reserved := ReserveResources(cfg, id, quote);
      if !reserved {
        r := RefuseOrder(id, SimReservationFailed);
        return;
      }
      var step := AcceptOrder(id);
      if step.Ok? {
        step := MatchOrder(cfg, id, quote);
      }
      r := if step.Ok? then Ok(Sim.BrokerResult(true, Some(LocalSimId(id)))) else Raised(step.error);
    }

    /** Match one order, and tell whether the quote lets it trade. */
    method MatchRow(cfg: SimConfig, id: nat, quote: Quote) returns (step: Result<()>, fills: bool)
      requires id < |orders|
      modifies this
      ensures fills <==> FillPrice(old(orders)[id], quote).Some?
      ensures match Sim.Match(cfg, old(Snapshot()), id, quote)
        case Ok(s) => step.Ok? && Snapshot() == s
        case Raised(e) => step == Raised(e)
    {
      fills := FillPrice(orders[id], quote).Some?;
      step := MatchOrder(cfg, id, quote);
    }

    /** Match the resting orders of the quote's symbol, in the order the query
        returned them; answers with the ids that filled. */
    method MatchAll(cfg: SimConfig, quote: Quote, rows: seq<nat>) returns (r: Result<seq<nat>>)
      requires Sim.RestingRows(orders, quote.symbol, rows)
      modifies this
      ensures match Sim.MatchRows(cfg, old(Snapshot()), quote, rows)
        case Ok(s) => r == Ok(Sim.Fillable(old(orders), quote, rows)) && Snapshot() == s
        case Raised(e) => r == Raised(e)
    {
      var filled := [];
      var i := 0;
      while i < |rows|
        invariant 0 <= i <= |rows|
        invariant Walked(cfg, old(Snapshot()), quote, rows, i, Snapshot(), filled)
      {
        WalkNext(cfg, old(Snapshot()), quote, rows, i, Snapshot(), filled);
        var step, fills := MatchRow(cfg, rows[i], quote);
        if step.Raised? {
          return Raised(step.error);
        }
        if fills {
          filled := filled + [rows[i]];
        }
        i := i + 1;
      }
      assert rows[..|rows|] == rows;
      return Ok(filled);
    }

    method TakeBack(cfg: SimConfig, id: nat) returns (r: Result<Sim.BrokerResult>)
      requires id < |orders|
      modifies this
      ensures match Sim.Cancel(cfg, old(Snapshot()), id)
        case Ok((s, result)) => r == Ok(result) && Snapshot() == s
        case Raised(e) => r == Raised(e)
    {
      var o := orders[id];
      if o.status != Submitted {
        return Ok(Sim.BrokerResult(false, o.brokerOrderId));
      }
      var step := TransitionOrder(id, CancelPending, SimCancelPending);
      if step.Ok? {
        step := ReleaseResources(cfg, id);
      }
      if step.Ok? {
        step := TransitionOrder(id, Cancelled, SimCancelled);
      }
      if step.Raised? {
        return Raised(step.error);
      }
      EnqueueEvent(OrderCancelled(id));
      return Ok(Sim.BrokerResult(true, o.brokerOrderId));
    }

    // ---- the external broker ------------------------------------------------------------------

    method SendOrder(cfg: Lb.LbConfig, id: nat, reply: Lb.Reply) returns (r: Result<Sim.BrokerResult>)
      requires id < |orders|
      modifies this
      ensures match Lb.LbSubmit(cfg, old(Snapshot()), id, reply)
        case Ok((s, result)) => r == Ok(result) && Snapshot() == s
        case Raised(e) => r == Raised(e)
    {
      var refused := Sim.BrokerResult(false, None);
      if orders[id].status != RiskApproved {
        return Ok(refused);
      }
      if !Lb.SubmissionAllowed(cfg) {
        RecordEvent(LbSubmissionBlocked, id);
        return Ok(refused);
      }
      ghost var before := orders;
      var step := TransitionOrder(id, Submitting, LbSubmitting);
      match reply {
        case Unreachable =>
          step := TransitionOrder(id, Reconciling, LbSubmitUnknown);
          r := if step.Ok? then Ok(refused) else Raised(step.error);
        case GatewayError =>
          step := TransitionOrder(id, Failed, LbSubmitFailed);
          r := if step.Ok? then Ok(refused) else Raised(step.error);
        case Answered(text) =>
          var taken := Lb.BrokerIdTaken(orders, ExternalId(text));
          assert taken == Lb.BrokerIdTaken(before, ExternalId(text)) by {
            SameBrokerIds(before, orders, ExternalId(text));
          }
          if taken {
            return Raised(DuplicateBrokerId);
          }
          orders := orders[id := orders[id].(brokerOrderId := Some(ExternalId(text)))];
          step := TransitionOrder(id, Submitted, LbSubmitted);
          r := if step.Ok? then Ok(Sim.BrokerResult(true, Some(ExternalId(text)))) else Raised(step.error);
      }
    }

    method AskBack(id: nat, reply: Lb.Reply) returns (r: Result<Sim.BrokerResult>)
      requires id < |orders|
      modifies this
      ensures match Lb.LbCancel(old(Snapshot()), id, reply)
        case Ok((s, result)) => r == Ok(result) && Snapshot() == s
        case Raised(e) => r == Raised(e)
    {
      var o := orders[id];
      if o.status !in {Submitted, PartiallyFilled} {
        return Ok(Sim.BrokerResult(false, o.brokerOrderId));
      }
      if o.brokerOrderId.None? {
        return Ok(Sim.BrokerResult(false, None));
      }
      var step := TransitionOrder(id, CancelPending, LbCancelPending);
      if step.Ok? && !reply.Answered? {
        step := TransitionOrder(id, Reconciling, LbCancelUnresolved);
      }
      r := if step.Ok? then Ok(Sim.BrokerResult(reply.Answered?, o.brokerOrderId)) else Raised(step.error);
    }

    method HandleOrderEvent(brokerId: Option<BrokerId>, target: Option<OrderStatus>) returns (r: Result<()>)
      modifies this
      ensures match Lb.Push(old(Snapshot()), brokerId, target)
        case Ok(s) => r.Ok? && Snapshot() == s
        case Raised(e) => r == Raised(e)
    {
      var key := if brokerId.Some? then brokerId.value else ExternalId("None");
      var id := Lb.BrokerIdIndex(orders, key);
      if id == |orders| || target.None? || target.value == orders[id].status {
        return Ok(());
      }
      r := TransitionOrder(id, target.value, LbPush);
      if r.Ok? {
        if target.value == Filled {
          EnqueueEvent(OrderFilled(id));
        } else if target.value == Cancelled {
          EnqueueEvent(OrderCancelled(id));
        }
      }
    }

    /** The push subscription: one transaction per push, rolled back on a raise. */
    method ReceivePush(brokerId: Option<BrokerId>, target: Option<OrderStatus>) returns (r: Result<()>)
      modifies this
      ensures match Lb.Push(old(Snapshot()), brokerId, target)
        case Ok(s) => r.Ok? && Snapshot() == s
        case Raised(e) => r == Raised(e) && Snapshot() == old(Snapshot())
    {
      var before := Snapshot();
      r := HandleOrderEvent(brokerId, target);
      if r.Raised? {
        Rollback(before);
      }
    }

    // ---- the executor ---------------------------------------------------------------------------

    method SubmitVia(broker: Exec.Broker, id: nat, quote: Quote, reply: Lb.Reply)
      returns (r: Result<Sim.BrokerResult>)
      requires id < |orders|
      modifies this
      ensures match Exec.SubmitVia(broker, old(Snapshot()), id, quote, reply)
        case Ok((s, result)) => r == Ok(result) && Snapshot() == s
        case Raised(e) => r == Raised(e)
    {
      match broker {
        case UseSim(cfg) => r := PlaceOrder(cfg, id, quote);
        case UseLongbridge(cfg) => r := SendOrder(cfg, id, reply);
      }
    }

    method SubmitMain(broker: Exec.Broker, risk: RiskConfig, req: Exec.Request, intent: Intent)
      returns (r: Result<nat>)
      modifies this
      ensures match Exec.SubmitMain(broker, risk, old(Snapshot()), req, intent)
        case Ok((s, id)) => r == Ok(id) && Snapshot() == s
        case Raised(e) => r == Raised(e)
    {
      if req.proposal.action == Exec.HoldAction || !ValidIntent(intent) || intent.limitPrice.None? {
        return Raised(InvalidInput);
      }
      var quote := Exec.FlatQuote(intent.symbol, intent.limitPrice.value);
      var id := FindOrCreate(intent, req.now);
      var checked := JudgeOrder(risk, id, Context(Some(quote), req.marketOpen, req.now));
      if checked.Raised? {
        return Raised(checked.error);
      }
      if orders[id].status != RiskApproved {
        return Raised(RefusedByRisk);
      }
      var result := SubmitVia(broker, id, quote, req.mainReply);
      if result.Raised? {
        return Raised(result.error);
      }
      return if result.value.accepted then Ok(id) else Raised(RefusedByBroker);
    }

    method SubmitChild(broker: Exec.Broker, parent: Intent, orderType: OrderType, price: Option<real>,
                       reply: Lb.Reply, now: int) returns (r: Result<Option<nat>>)
      modifies this
      ensures match Exec.SubmitChild(broker, old(Snapshot()), parent, orderType, price, reply, now)
        case Ok((s, id)) => r == Ok(id) && Snapshot() == s
        case Raised(e) => r == Raised(e)
    {
      if parent.side != Buy || !Exec.Wanted(price) {
        return Ok(None);
      }
      var intent := parent.(side := Sell, orderType := orderType, limitPrice := price);
      if !ValidIntent(intent) {
        return Raised(InvalidInput);
      }
      var id := FindOrCreate(intent, now);
      var step := TransitionOrder(id, RiskApproved, BracketAutoApproved);
      if step.Raised? {
        return Raised(step.error);
      }
      var result := SubmitVia(broker, id, Exec.FlatQuote(intent.symbol, price.value), reply);
      return if result.Ok? then Ok(Some(id)) else Raised(result.error);
    }

    method DoExecute(broker: Exec.Broker, risk: RiskConfig, req: Exec.Request) returns (r: Result<Exec.Executed>)
      modifies this
      ensures match Exec.Execute(broker, risk, old(Snapshot()), req)
        case Ok((s, done)) => r == Ok(done) && Snapshot() == s
        case Raised(e) => r == Raised(e)
    {
      var p := req.proposal;
      var existing := Exec.TraceIndex(Snapshot(), req.trace, req.strategy, p.symbol, 0);
      if existing < |orders| {
        return Ok(Exec.Executed(existing, true, None, None));
      }
      var intent := Exec.MainIntent(req, |signals|);
      signals := signals + [Signal(req.trace, req.strategy, p.symbol)];
      var main := SubmitMain(broker, risk, req, intent);
      if main.Raised? {
        return Raised(main.error);
      }
      var profit := SubmitChild(broker, intent, LimitIfTouched, p.takeProfit, req.profitReply, req.now);
      if profit.Raised? {
        return Raised(profit.error);
      }
      var loss := SubmitChild(broker, intent, StopLimit, p.stopLoss, req.lossReply, req.now);
      if loss.Raised? {
        return Raised(loss.error);
      }
      RecordEvent(TradeApproved, main.value);
      return Ok(Exec.Executed(main.value, false, profit.value, loss.value));
    }

    /** All or nothing: a raise anywhere leaves the tables as they were. */
    method Transact(broker: Exec.Broker, risk: RiskConfig, req: Exec.Request) returns (r: Result<Exec.Executed>)
      modifies this
      ensures match Exec.Execute(broker, risk, old(Snapshot()), req)
        case Ok((s, done)) => r == Ok(done) && Snapshot() == s
        case Raised(e) => r == Raised(e) && Snapshot() == old(Snapshot())
    {
      var before := Snapshot();
      r := DoExecute(broker, risk, req);
      if r.Raised? {
        Rollback(before);
      }
    }

    // ---- what callers use -------------------------------------------------------------------------

    /** The first order with the intent's key, or a new one behind the others. */
    method CreateOrderFromIntent(intent: Intent, now: int) returns (id: nat)
      requires Valid() && (intent.signal.Some? ==> intent.signal.value < |signals|)
      modifies this
      ensures Valid() && Growth.Grows(old(Snapshot()), Snapshot())
      ensures (Snapshot(), id) == Service.CreateOrder(old(Snapshot()), intent, now)
      ensures Promises.Creates(old(Snapshot()), Snapshot(), id, intent, now)
    {
      Promises.CreatePromise(Snapshot(), intent, now);
      id := FindOrCreate(intent, now);
    }

    /** The first rule that the order breaks, or approval if it breaks none. */
    method CheckRisk(cfg: RiskConfig, id: nat, ctx: Context) returns (reason: Reason)
      requires id < |orders| && (ctx.quote.Some? ==> ValidQuote(ctx.quote.value))
      ensures IsVerdict(cfg, Snapshot(), id, ctx, reason)
    {
      reason := FirstBroken(cfg, id, ctx);
      CheckMeans(cfg, Snapshot(), id, ctx, reason);
    }

    method RunRiskCheck(cfg: RiskConfig, id: nat, ctx: Context) returns (r: Result<Reason>)
      requires Valid() && id < |orders| && (ctx.quote.Some? ==> ValidQuote(ctx.quote.value))
      modifies this
      ensures r.Ok? ==> Risk.RunRiskCheck(cfg, old(Snapshot()), id, ctx) == Ok(Snapshot())
      ensures Valid() && Growth.Grows(old(Snapshot()), Snapshot())
      ensures r.Ok? <==> old(orders)[id].status == Created
      ensures if r.Ok? then Promises.Judges(cfg, old(Snapshot()), Snapshot(), id, ctx, r.value)
              else Snapshot() == old(Snapshot())
    {
      Promises.RiskPromise(cfg, Snapshot(), id, ctx);
      r := JudgeOrder(cfg, id, ctx);
    }

    /** A submission never raises, and conserves cash where the paper broker alone has been
        at work. */
    method SubmitOrder(cfg: SimConfig, id: nat, quote: Quote) returns (r: Result<Sim.BrokerResult>)
      requires Valid() && id < |orders| && ValidQuote(quote)
      modifies this
      ensures r.Ok? && Sim.Submit(cfg, old(Snapshot()), id, quote) == Ok((Snapshot(), r.value))
      ensures Valid() && Growth.Grows(old(Snapshot()), Snapshot())
      ensures Promises.Submits(cfg, old(Snapshot()), Snapshot(), id, quote, r.value)
      ensures old(Cash.AtRest(Snapshot())) ==> Cash.Keeps(cfg, old(Snapshot()), Snapshot())
    {
      Promises.SubmitPromise(cfg, Snapshot(), id, quote);
      r := PlaceOrder(cfg, id, quote);
    }

    method ProcessQuote(cfg: SimConfig, quote: Quote, rows: seq<nat>) returns (r: Result<seq<nat>>)
      requires Valid() && ValidQuote(quote) && Sim.RestingRows(orders, quote.symbol, rows)
      modifies this
      ensures r.Ok? ==> Sim.MatchRows(cfg, old(Snapshot()), quote, rows) == Ok(Snapshot())
      ensures r.Ok? ==> Valid() && Growth.Grows(old(Snapshot()), Snapshot())
      ensures r.Ok? ==> r.value == Sim.Fillable(old(orders), quote, rows)
      ensures r.Ok? ==>
                forall k :: k in r.value <==> k in rows && Reaches(old(orders)[k], Bid(quote), Ask(quote))
      ensures r.Ok? ==> Triggers.Trades(old(orders), orders, quote.symbol, Bid(quote), Ask(quote))
      ensures old(Cash.AtRest(Snapshot())) ==> r.Ok? && Cash.Keeps(cfg, old(Snapshot()), Snapshot())
    {
      Triggers.FillableIff(orders, quote, rows);
      Promises.QuotePromise(cfg, Snapshot(), quote, rows);
      r := MatchAll(cfg, quote, rows);
    }

    method CancelOrder(cfg: SimConfig, id: nat) returns (r: Result<Sim.BrokerResult>)
      requires Valid() && id < |orders|
      modifies this
      ensures r.Ok? ==> Sim.Cancel(cfg, old(Snapshot()), id) == Ok((Snapshot(), r.value))
      ensures r.Ok? ==> Valid() && Growth.Grows(old(Snapshot()), Snapshot())
      ensures r.Ok? ==> Promises.Cancels(old(Snapshot()), Snapshot(), id, r.value)
      ensures old(Cash.AtRest(Snapshot())) ==> r.Ok? && Cash.Keeps(cfg, old(Snapshot()), Snapshot())
    {
      Promises.CancelPromise(cfg, Snapshot(), id);
      r := TakeBack(cfg, id);
    }

    method SubmitExternal(cfg: Lb.LbConfig, id: nat, reply: Lb.Reply) returns (r: Result<Sim.BrokerResult>)
      requires Valid() && id < |orders|
      modifies this
      ensures r.Ok? ==> Lb.LbSubmit(cfg, old(Snapshot()), id, reply) == Ok((Snapshot(), r.value))
      ensures r.Raised? ==> reply.Answered? && Lb.BrokerIdTaken(old(orders), ExternalId(reply.id))
      ensures r.Ok? ==> Valid() && Growth.Grows(old(Snapshot()), Snapshot())
      ensures r.Ok? ==> Promises.Sends(cfg, old(Snapshot()), Snapshot(), id, reply, r.value)
    {
      Promises.SendPromise(cfg, Snapshot(), id, reply);
      r := SendOrder(cfg, id, reply);
    }

    method CancelExternal(id: nat, reply: Lb.Reply) returns (r: Result<Sim.BrokerResult>)
      requires Valid() && id < |orders|
      modifies this
      ensures r.Ok? ==> Lb.LbCancel(old(Snapshot()), id, reply) == Ok((Snapshot(), r.value))
      ensures r.Ok? && Valid() && Growth.Grows(old(Snapshot()), Snapshot())
      ensures Promises.AsksToCancel(old(Snapshot()), Snapshot(), id, reply, r.value)
    {
      Promises.AskPromise(Snapshot(), id, reply);
      r := AskBack(id, reply);
    }

    /** Any push: an order moves to the pushed status if its life cycle allows it, orders at
        their end stay as they are, and a push that raises leaves no trace. */
    method OnPush(brokerId: Option<BrokerId>, target: Option<OrderStatus>) returns (r: Result<()>)
      requires Valid()
      modifies this
      ensures r.Ok? ==> Lb.Push(old(Snapshot()), brokerId, target) == Ok(Snapshot())
      ensures Valid() && Growth.Grows(old(Snapshot()), Snapshot())
      ensures Promises.RespectsEnds(old(Snapshot()), Snapshot())
      ensures r.Raised? ==> Snapshot() == old(Snapshot())
      ensures Promises.Heeds(old(Snapshot()), Snapshot(), r.Ok?, brokerId, target)
    {
      Promises.PushPromise(Snapshot(), brokerId, target);
      r := ReceivePush(brokerId, target);
    }

    /** All or nothing, with either broker: the order asked for and its protective
        children, or no change. */
    method Execute(broker: Exec.Broker, risk: RiskConfig, req: Exec.Request) returns (r: Result<Exec.Executed>)
      requires Valid()
      modifies this
      ensures r.Ok? ==> Exec.Execute(broker, risk, old(Snapshot()), req) == Ok((Snapshot(), r.value))
      ensures Valid() && Growth.Grows(old(Snapshot()), Snapshot())
      ensures if r.Ok? && !r.value.reused
              then && Commits.Committed(old(Snapshot()), Snapshot())
                   && Execution.Places(old(Snapshot()), Snapshot(), req, r.value)
              else Snapshot() == old(Snapshot()) && (r.Ok? ==> Execution.Reuses(old(Snapshot()), req, r.value))
    {
      ghost var before := Snapshot();
      if Exec.Execute(broker, risk, before, req).Ok? {
        Promises.ExecutePromise(broker, risk, before, req);
      }
      r := Transact(broker, risk, req);
    }
  }

  lemma SameBrokerIds(was: seq<Order>, now: seq<Order>, id: BrokerId)
    requires |now| == |was|
    requires forall k :: 0 <= k < |was| ==> now[k].brokerOrderId == was[k].brokerOrderId
    ensures Lb.BrokerIdTaken(now, id) == Lb.BrokerIdTaken(was, id)
  {
    if Lb.BrokerIdTaken(was, id) {
      var k :| 0 <= k < |was| && was[k].brokerOrderId == Some(id);
      assert now[k].brokerOrderId == Some(id);
    }
  }

  /** The first `i` rows are matched; the others are as they were. */
  ghost predicate Walked(cfg: SimConfig, was: Store, quote: Quote, rows: seq<nat>, i: nat, now: Store, filled: seq<nat>)
    requires Sim.RestingRows(was.orders, quote.symbol, rows) && i <= |rows|
  {
    && Sim.MatchRows(cfg, was, quote, rows[..i]) == Ok(now)
    && filled == Sim.Fillable(was.orders, quote, rows[..i])
    && |now.orders| == |was.orders|
    && forall k :: i <= k < |rows| ==> now.orders[rows[k]] == was.orders[rows[k]]
  }

  lemma WalkNext(cfg: SimConfig, was: Store, quote: Quote, rows: seq<nat>, i: nat, now: Store, filled: seq<nat>)
    requires Sim.RestingRows(was.orders, quote.symbol, rows) && i < |rows|
    requires Walked(cfg, was, quote, rows, i, now, filled)
    ensures
      var id := rows[i];
      var fills := FillPrice(now.orders[id], quote).Some?;
      match Sim.Match(cfg, now, id, quote)
      case Ok(next) => Walked(cfg, was, quote, rows, i + 1, next, if fills then filled + [id] else filled)
      case Raised(e) => Sim.MatchRows(cfg, was, quote, rows) == Raised(e)
  {
    assert rows[..i + 1][..i] == rows[..i];
    if Sim.Match(cfg, now, rows[i], quote).Ok? {
      Sim.MatchChangesRow(cfg, now, rows[i], quote);
    } else {
      RaiseInRows(cfg, was, quote, rows, i + 1);
    }
  }

  /** A raise part way through the rows is the raise of the whole scan. */
  lemma {:induction false} RaiseInRows(cfg: SimConfig, s: Store, quote: Quote, rows: seq<nat>, i: nat)
    requires forall k :: 0 <= k < |rows| ==> rows[k] < |s.orders|
    requires i <= |rows| && Sim.MatchRows(cfg, s, quote, rows[..i]).Raised?
    ensures Sim.MatchRows(cfg, s, quote, rows) == Sim.MatchRows(cfg, s, quote, rows[..i])
  {
    if i == |rows| {
      assert rows[..i] == rows;
    } else {
      var last := |rows| - 1;
      assert rows[..last][..i] == rows[..i];
      RaiseInRows(cfg, s, quote, rows[..last], i);
    }
  }
}
