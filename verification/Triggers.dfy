/** When orders trade, told by limit, bid and ask: what comes of submissions and quotes,
    and of resting orders in runs. */
module Triggers {
  import opened Domain
  import opened Tables
  import opened Pricing
  import opened Risk
  import opened LocalSim
  import opened Executor
  import opened Runs
  import opened Cash
  import opened CashRuns
  import opened Execution
  import opened Commits

  // ---- a quote -----------------------------------------------------------------------------

  /** Exactly the resting orders of the symbol that the prices reach have traded. */
  ghost predicate Trades(orders: seq<Order>, orders': seq<Order>, y: Symbol, bid: real, ask: real) {
    && |orders'| == |orders|
    && forall k :: 0 <= k < |orders| ==>
         orders'[k] == if orders[k].status == Submitted && orders[k].symbol == y && Reaches(orders[k], bid, ask)
                       then TradedRow(orders[k], bid, ask) else orders[k]
  }

  lemma {:induction false} MatchedRows(cfg: SimConfig, s: Store, quote: Quote, rows: seq<nat>)
    requires forall i :: 0 <= i < |rows| ==> rows[i] < |s.orders| && s.orders[rows[i]].status == Submitted
    requires forall i, j :: 0 <= i < j < |rows| ==> rows[i] != rows[j]
    requires MatchRows(cfg, s, quote, rows).Ok?
    ensures IsMatched(s.orders, MatchRows(cfg, s, quote, rows).value.orders, quote, rows)
  {
    if rows != [] {
      var last := |rows| - 1;
      MatchedRows(cfg, s, quote, rows[..last]);
      var before, id := MatchRows(cfg, s, quote, rows[..last]).value, rows[last];
      MatchedRow(s.orders, before.orders, quote, rows);
      MatchShape(cfg, before, id, quote);
    }
  }

  lemma MatchShape(cfg: SimConfig, s: Store, id: nat, quote: Quote)
    requires id < |s.orders| && s.orders[id].status == Submitted && Match(cfg, s, id, quote).Ok?
    ensures Match(cfg, s, id, quote).value.orders == s.orders[id := Matched(s.orders[id], quote)]
  {
    FillPriceIff(s.orders[id], quote);
    if FillPrice(s.orders[id], quote).Some? {
      FillShape(cfg, s, id, FillPrice(s.orders[id], quote).value);
    }
  }

  /** A quote that goes through trades exactly the resting orders it reaches, at the ask
      or the bid, and leaves no order resting that it reaches. */
  lemma QuoteTrades(cfg: SimConfig, s: Store, quote: Quote, rows: seq<nat>)
    requires RestingRows(s.orders, quote.symbol, rows) && MatchRows(cfg, s, quote, rows).Ok?
    ensures Trades(s.orders, MatchRows(cfg, s, quote, rows).value.orders, quote.symbol, Bid(quote), Ask(quote))
  {
    MatchedRows(cfg, s, quote, rows);
    RowsTrade(s.orders, MatchRows(cfg, s, quote, rows).value.orders, quote, rows);
  }

  lemma RowsTrade(orders: seq<Order>, orders': seq<Order>, quote: Quote, rows: seq<nat>)
    requires RestingRows(orders, quote.symbol, rows) && IsMatched(orders, orders', quote, rows)
    ensures Trades(orders, orders', quote.symbol, Bid(quote), Ask(quote))
  {
  }

  /** The rows that a quote fills are those it reaches, each once. */
  lemma {:induction false} FillableIff(orders: seq<Order>, quote: Quote, rows: seq<nat>)
    requires forall i :: 0 <= i < |rows| ==> rows[i] < |orders|
    requires forall i, j :: 0 <= i < j < |rows| ==> rows[i] != rows[j]
    ensures
      var filled := Fillable(orders, quote, rows);
      && (forall k :: k in filled <==> k in rows && Reaches(orders[k], Bid(quote), Ask(quote)))
      && (forall i, j :: 0 <= i < j < |filled| ==> filled[i] != filled[j])
  {
    if rows != [] {
      var last := |rows| - 1;
      FillableIff(orders, quote, rows[..last]);
      FillPriceIff(orders[rows[last]], quote);
      assert forall k :: k in rows <==> k in rows[..last] || k == rows[last];
      assert rows[last] !in rows[..last];
    }
  }

  /** They come in the order of the rows. */
  lemma {:induction false} FillableConcat(orders: seq<Order>, quote: Quote, xs: seq<nat>, ys: seq<nat>)
    requires forall i :: 0 <= i < |xs + ys| ==> (xs + ys)[i] < |orders|
    requires forall i :: 0 <= i < |xs| ==> xs[i] < |orders|
    requires forall i :: 0 <= i < |ys| ==> ys[i] < |orders|
    ensures Fillable(orders, quote, xs + ys) == Fillable(orders, quote, xs) + Fillable(orders, quote, ys)
  {
    if ys == [] {
      assert xs + ys == xs;
    } else {
      var last := |ys| - 1;
      assert (xs + ys)[..|xs + ys| - 1] == xs + ys[..last];
      FillableConcat(orders, quote, xs, ys[..last]);
    }
  }

  // ---- a submission --------------------------------------------------------------------------

  /** What the order would tie up is there: cash at its limit, or at the ask without one;
      shares for an ordinary sale, nothing for a protective one. */
  predicate Coverable(cfg: SimConfig, s: Store, o: Order, ask: real) {
    && o.accountId in s.accounts
    && if o.side == Buy then
         s.accounts[o.accountId].cashAvailable
         >= CostAt(cfg, o.quantity, if o.limitPrice.Some? then o.limitPrice.value else ask)
       else
         || o.orderType == LimitIfTouched || o.orderType == StopLimit
         || (HasPosition(s.positions, o.accountId, o.symbol)
             && Held(s.positions, o.accountId, o.symbol).availableQuantity >= o.quantity)
  }

  /** How an approved order comes out of its submission: failed if the quote is for another
      symbol or the order cannot be covered, else traded if the prices reach it, else
      resting under a broker id. */
  function SubmittedRow(cfg: SimConfig, s: Store, id: nat, y: Symbol, bid: real, ask: real): Order
    requires id < |s.orders|
  {
    var o := s.orders[id];
    var resting := o.(status := Submitted, brokerOrderId := Some(LocalSimId(id)));
    if y != o.symbol || !Coverable(cfg, s, o, ask) then o.(status := Failed)
    else if Reaches(o, bid, ask) then TradedRow(resting, bid, ask)
    else resting
  }

  lemma ReservesIff(cfg: SimConfig, s: Store, id: nat, quote: Quote)
    requires id < |s.orders|
    ensures Reserve(cfg, s, id, quote).Reserved? <==> Coverable(cfg, s, s.orders[id], Ask(quote))
  {
  }

  lemma SubmitTrades(cfg: SimConfig, s: Store, id: nat, quote: Quote)
    requires id < |s.orders| && s.orders[id].status == RiskApproved
    ensures Submit(cfg, s, id, quote).Ok?
    ensures Submit(cfg, s, id, quote).value.0.orders
         == s.orders[id := SubmittedRow(cfg, s, id, quote.symbol, Bid(quote), Ask(quote))]
  {
    SubmitShape(cfg, s, id, quote);
    ReservesIff(cfg, s, id, quote);
    FillPriceIff(s.orders[id], quote);
    if quote.symbol != s.orders[id].symbol {
      RefusedRow(s, id, SimSymbolMismatch);
    } else if Reserve(cfg, s, id, quote).Refused? {
      RefusedRow(s, id, SimReservationFailed);
    } else {
      CoveredTrades(cfg, s, id, quote);
    }
  }

  lemma RefusedRow(s: Store, id: nat, event: AuditEvent)
    requires id < |s.orders| && s.orders[id].status == RiskApproved
    ensures Refuse(s, id, event).Ok?
    ensures Refuse(s, id, event).value.0.orders == s.orders[id := s.orders[id].(status := Failed)]
  {
  }

  lemma CoveredTrades(cfg: SimConfig, s: Store, id: nat, quote: Quote)
    requires id < |s.orders| && s.orders[id].status == RiskApproved && Reserve(cfg, s, id, quote).Reserved?
    ensures
      var o, accepted := s.orders[id], Accepted(cfg, s, id, quote);
      match FillPrice(o, quote)
      case None => accepted.orders == s.orders[id := AcceptedRow(o, id)]
      case Some(price) =>
        && ApplyFill(cfg, accepted, id, price).Ok?
        && ApplyFill(cfg, accepted, id, price).value.orders == s.orders[id := FilledRow(AcceptedRow(o, id), price)]
  {
    AcceptedShape(cfg, s, id, quote);
    if FillPrice(s.orders[id], quote).Some? {
      FillShape(cfg, Accepted(cfg, s, id, quote), id, FillPrice(s.orders[id], quote).value);
    }
  }

  // ---- runs ------------------------------------------------------------------------------------

  /** The step is a quote that reaches the order. */
  predicate QuoteReaches(o: Order, step: Step) {
    step.StepSimQuote? && step.quote.symbol == o.symbol && Reaches(o, Bid(step.quote), Ask(step.quote))
  }

  /** In every run, with either broker: a committed quote leaves no order resting that it
      reaches. */
  lemma NoneLeftResting(cfg: Config, states: seq<Store>, steps: seq<Step>, i: nat, k: nat)
    requires IsRun(cfg, states, steps) && i < |steps| && steps[i].StepSimQuote?
    requires Enabled(cfg, states[i], steps[i]) && Call(cfg, states[i], steps[i]).Ok?
    requires k < |states[i + 1].orders| && states[i + 1].orders[k].status == Submitted
    ensures !QuoteReaches(states[i + 1].orders[k], steps[i])
  {
    assert states[i + 1] == Apply(cfg, states[i], steps[i]);
    QuoteTrades(cfg.sim, states[i], steps[i].quote, steps[i].rows);
  }

  /** A step other than a quote leaves a resting order as it is, or cancels it. */
  lemma RestingOtherwise(cfg: Config, s: Store, step: Step, k: nat)
    requires Enabled(cfg, s, step) && IsLocal(cfg, step) && !step.StepSimQuote?
    requires NoneWaiting(s, Some(|s.signals|)) && k < |s.orders| && s.orders[k].status == Submitted
    ensures
      var now := Apply(cfg, s, step).orders;
      k < |now| && (now[k] == s.orders[k] || now[k] == s.orders[k].(status := Cancelled))
  {
    if Call(cfg, s, step).Ok? {
      match step
      case StepCreate(intent, now) =>
      case StepRisk(id, ctx) => CheckedRow(cfg.risk, s, id, ctx);
      case StepBracket(id) =>
      case StepSimSubmit(id, quote) => SubmitLeaves(cfg.sim, s, id, quote, k);
      case StepSimCancel(id) =>
        if s.orders[id].status == Submitted {
          CancelShape(cfg.sim, s, id);
        }
      case StepExecute(broker, req) => ExecutionLeaves(broker, cfg.risk, s, req);
    }
  }

  lemma SubmitLeaves(cfg: SimConfig, s: Store, id: nat, quote: Quote, k: nat)
    requires id < |s.orders| && k < |s.orders| && s.orders[k].status == Submitted
    ensures Submit(cfg, s, id, quote).Ok?
    ensures
      var now := Submit(cfg, s, id, quote).value.0.orders;
      k < |now| && now[k] == s.orders[k]
  {
    SubmitShape(cfg, s, id, quote);
    if s.orders[id].status == RiskApproved {
      SubmitTrades(cfg, s, id, quote);
    }
  }

  lemma ExecutionLeaves(broker: Broker, risk: RiskConfig, s: Store, req: Request)
    requires NoneWaiting(s, Some(|s.signals|)) && Execute(broker, risk, s, req).Ok?
    ensures
      var now := Execute(broker, risk, s, req).value.0.orders;
      |s.orders| <= |now| && forall k :: 0 <= k < |s.orders| ==> now[k] == s.orders[k]
  {
    if Execute(broker, risk, s, req).value.1.reused {
      ReuseIsNoop(broker, risk, s, req);
    } else {
      ExecutionTheorem(broker, risk, s, req);
      var now := Execute(broker, risk, s, req).value.0.orders;
      assert forall k :: 0 <= k < |s.orders| ==> now[k] == now[..|s.orders|][k];
    }
  }

  /** In every local run an order that rests trades in the next step if and only if that
      step is a quote that reaches it. */
  lemma RestingTradesIff(cfg: Config, states: seq<Store>, steps: seq<Step>, i: nat, k: nat)
    requires IsLocalRun(cfg, states, steps) && IsOpening(states[0]) && i < |steps|
    requires k < |states[i].orders| && states[i].orders[k].status == Submitted
    ensures k < |states[i + 1].orders|
    ensures states[i + 1].orders[k].status == Filled <==> QuoteReaches(states[i].orders[k], steps[i])
  {
    assert Enabled(cfg, states[i], steps[i]) && states[i + 1] == Apply(cfg, states[i], steps[i]);
    assert IsLocal(cfg, steps[i]);
    if steps[i].StepSimQuote? {
      BrokerNeverRaises(cfg, states, steps, i, steps[i]);
      QuoteTrades(cfg.sim, states[i], steps[i].quote, steps[i].rows);
    } else {
      NextSignalIsNew(cfg, states, steps, i);
      RestingOtherwise(cfg, states[i], steps[i], k);
    }
  }
}
