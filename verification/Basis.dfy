/** Shares and cost basis on every local run, brackets included: what the tables say
    exactly, and what uncovered sales lose. */
module Basis {
  import opened Domain
  import opened Sums
  import opened Tables
  import opened Pricing
  import opened OrderService
  import opened Risk
  import opened LocalSim
  import opened Longbridge
  import opened Executor
  import opened Runs
  import opened Cash
  import opened CashRuns
  import opened Shares
  import opened RowOrder
  import opened Execution
  import opened Commits

  // ---- what holds at rest ---------------------------------------------------------------------

  ghost predicate NoShorts(positions: seq<Position>) {
    forall a, y :: Held(positions, a, y).quantity >= 0.0 && Held(positions, a, y).availableQuantity >= 0.0
  }

  /** Shares have a cost, and nothing else does. */
  predicate IsCosted(p: Position) {
    p.avgCost >= 0.0 && (p.avgCost > 0.0 <==> p.quantity > 0.0)
  }

  ghost predicate Costed(positions: seq<Position>) {
    forall a, y :: IsCosted(Held(positions, a, y))
  }

  /** Totals agree with positions, and no position is negative. */
  ghost predicate InBooks(s: Store) {
    Valued(s) && NoShorts(s.positions)
  }

  ghost predicate Sane(s: Store) {
    AtRest(s) && InBooks(s)
  }

  /** What an order does to the shares available for sale: a filled buy adds to them, an
      ordinary sell takes from them as soon as it rests. */
  function Frees(a: AccountId, y: Symbol): Order -> real {
    (o: Order) =>
      if o.accountId != a || o.symbol != y then 0.0
      else if o.side == Buy then if o.status == Filled then o.quantity else 0.0
      else if !IsBracket(o) && o.status in {Submitted, Filled} then -o.quantity
      else 0.0
  }

  /** Shares that a filled order brought in or took out, bracket sales aside. */
  function OrdinaryNets(a: AccountId, y: Symbol): Order -> real {
    (o: Order) => if IsBracket(o) then 0.0 else Nets(a, y)(o)
  }

  function FreeGap(s: Store, a: AccountId, y: Symbol): real {
    Held(s.positions, a, y).availableQuantity - Sum(Frees(a, y), s.orders)
  }

  /** The books still agree, the account's wealth has grown by the basis that was lost,
      its shares exceed bought less sold by what could not be taken off, and the
      available shares are what the orders make them. */
  ghost predicate Moves(cfg: SimConfig, s: Store, s': Store, a: AccountId, y: Symbol, basis: real, shares: real)
    requires a in s.accounts
  {
    && InBooks(s') && a in s'.accounts && Wealth(s', a) == Wealth(s, a) + basis
    && NetGap(s', a, y) == NetGap(s, a, y) + shares && FreeGap(s', a, y) == FreeGap(s, a, y)
    && (ValidConfig(cfg) && Costed(s.positions) ==> Costed(s'.positions))
  }

  /** Average costs and quantities are as they were. */
  ghost predicate SameHoldings(s: Store, s': Store) {
    forall a, y ::
      && Held(s'.positions, a, y).quantity == Held(s.positions, a, y).quantity
      && Held(s'.positions, a, y).avgCost == Held(s.positions, a, y).avgCost
  }

  // ---- what the fills of a call lose ---------------------------------------------------------------

  /** Basis lost when an order is filled against a position. */
  function LostBasis(): (Position, Order) -> real {
    (p: Position, o: Order) => Shortfall(p, o)
  }

  /** Shares of the symbol that were sold but not there to take off. */
  function LostShares(y: Symbol): (Position, Order) -> real {
    (p: Position, o: Order) =>
      if o.symbol == y && o.side == Sell && p.quantity < o.quantity then o.quantity - p.quantity else 0.0
  }

  function FillTotal(f: (Position, Order) -> real, positions: seq<Position>, o: Order, a: AccountId): real {
    if o.accountId == a then f(Held(positions, a, o.symbol), o) else 0.0
  }

  function MatchTotal(f: (Position, Order) -> real, s: Store, id: nat, quote: Quote, a: AccountId): real
    requires id < |s.orders|
  {
    if FillPrice(s.orders[id], quote).Some? then FillTotal(f, s.positions, s.orders[id], a) else 0.0
  }

  function SubmitTotal(f: (Position, Order) -> real, cfg: SimConfig, s: Store, id: nat, quote: Quote, a: AccountId)
    : real
    requires id < |s.orders|
  {
    var o := s.orders[id];
    if o.status == RiskApproved && quote.symbol == o.symbol && Reserve(cfg, s, id, quote).Reserved?
    then MatchTotal(f, s, id, quote, a) else 0.0
  }

  function RowsTotal(f: (Position, Order) -> real, cfg: SimConfig, s: Store, quote: Quote, rows: seq<nat>,
                     a: AccountId): real
    requires InRange(s.orders, rows)
  {
    if rows == [] then 0.0
    else
      var last := |rows| - 1;
      RowsTotal(f, cfg, s, quote, rows[..last], a)
      + (match MatchRows(cfg, s, quote, rows[..last])
         case Ok(before) => MatchTotal(f, before, rows[last], quote, a)
         case Raised(_) => 0.0)
  }

  function Child(parent: Intent, orderType: OrderType, price: Option<real>): Intent {
    parent.(side := Sell, orderType := orderType, limitPrice := price)
  }

  function ChildTotal(f: (Position, Order) -> real, s: Store, parent: Intent, orderType: OrderType,
                      price: Option<real>, a: AccountId): real
  {
    if parent.side == Buy && Wanted(price) then
      FillTotal(f, s.positions, NewOrder(Child(parent, orderType, price), 0), a)
    else 0.0
  }

  /** A committed execution fills its order and its children, one after the other. */
  function ExecuteTotal(f: (Position, Order) -> real, cfg: SimConfig, risk: RiskConfig, s: Store, req: Request,
                        a: AccountId): real
  {
    var p := req.proposal;
    var signalled := s.(signals := s.signals + [Signal(req.trace, req.strategy, p.symbol)]);
    var intent := MainIntent(req, |s.signals|);
    if TraceIndex(s, req.trace, req.strategy, p.symbol, 0) < |s.orders| then 0.0
    else
      match SubmitMain(UseSim(cfg), risk, signalled, req, intent)
      case Raised(_) => 0.0
      case Ok((main, _)) =>
        FillTotal(f, s.positions, NewOrder(intent, 0), a)
        + ChildTotal(f, main, intent, LimitIfTouched, p.takeProfit, a)
        + (match SubmitChild(UseSim(cfg), main, intent, LimitIfTouched, p.takeProfit, req.profitReply, req.now)
           case Raised(_) => 0.0
           case Ok((profit, _)) => ChildTotal(f, profit, intent, StopLimit, p.stopLoss, a))
  }

  function StepTotal(f: (Position, Order) -> real, cfg: Config, s: Store, step: Step, a: AccountId): real
    requires Enabled(cfg, s, step)
  {
    if Call(cfg, s, step).Raised? then 0.0
    else
      match step
      case StepSimSubmit(id, quote) => SubmitTotal(f, cfg.sim, s, id, quote, a)
      case StepSimQuote(quote, rows) => RowsTotal(f, cfg.sim, s, quote, rows, a)
      case StepExecute(_, req) => ExecuteTotal(f, cfg.sim, cfg.risk, s, req, a)
      case _ => 0.0
  }

  // ---- calls that lose nothing ----------------------------------------------------------------------

  /** The orders trade and lock what they did. */
  ghost predicate SameTrades(s: Store, s': Store, a: AccountId, y: Symbol) {
    && Sum(Nets(a, y), s'.orders) == Sum(Nets(a, y), s.orders)
    && Sum(Frees(a, y), s'.orders) == Sum(Frees(a, y), s.orders)
  }

  lemma RowTrades(s: Store, s': Store, id: nat, a: AccountId, y: Symbol)
    requires id < |s.orders| == |s'.orders| && s'.orders == s.orders[id := s'.orders[id]]
    requires s.orders[id].status !in {Submitted, Filled} && s'.orders[id].status !in {Submitted, Filled}
    ensures SameTrades(s, s', a, y)
  {
    SumUpdate(Nets(a, y), s.orders, id, s'.orders[id]);
    SumUpdate(Frees(a, y), s.orders, id, s'.orders[id]);
  }

  lemma NewRowTrades(s: Store, intent: Intent, now: int, a: AccountId, y: Symbol)
    ensures SameTrades(s, CreateOrder(s, intent, now).0, a, y)
  {
    SumAppend(Nets(a, y), s.orders, NewOrder(intent, now));
    SumAppend(Frees(a, y), s.orders, NewOrder(intent, now));
  }

  lemma QuietMoves(cfg: SimConfig, s: Store, s': Store, a: AccountId, y: Symbol)
    requires InBooks(s) && SameBalances(s, s') && a in s.accounts && SameTrades(s, s', a, y)
    ensures Moves(cfg, s, s', a, y, 0.0, 0.0)
  {
  }

  lemma CreatedMoves(cfg: SimConfig, s: Store, intent: Intent, now: int, a: AccountId, y: Symbol)
    requires InBooks(s) && a in s.accounts
    ensures Moves(cfg, s, CreateOrder(s, intent, now).0, a, y, 0.0, 0.0)
  {
    NewRowTrades(s, intent, now, a, y);
    QuietMoves(cfg, s, CreateOrder(s, intent, now).0, a, y);
  }

  lemma RowMoves(cfg: SimConfig, s: Store, s': Store, id: nat, a: AccountId, y: Symbol)
    requires InBooks(s) && SameBalances(s, s') && a in s.accounts
    requires id < |s.orders| == |s'.orders| && s'.orders == s.orders[id := s'.orders[id]]
    requires s.orders[id].status !in {Submitted, Filled} && s'.orders[id].status !in {Submitted, Filled}
    ensures Moves(cfg, s, s', a, y, 0.0, 0.0)
  {
    RowTrades(s, s', id, a, y);
    QuietMoves(cfg, s, s', a, y);
  }

  /** What unlocking does to one position. */
  lemma UnlockedGaps(s: Store, s': Store, id: nat, free: real, a: AccountId, y: Symbol)
    requires NoShorts(s.positions) && Unlocks(s, s', id, free)
    ensures NetGap(s', a, y) == NetGap(s, a, y) && FreeGap(s', a, y) == FreeGap(s, a, y)
    ensures
      var was, now := Held(s.positions, a, y), Held(s'.positions, a, y);
      now.quantity == was.quantity && now.avgCost == was.avgCost && now.availableQuantity >= 0.0
  {
    var o := s.orders[id];
    var held := Held(s.positions, o.accountId, o.symbol);
    SumUpdate(Nets(a, y), s.orders, id, s'.orders[id]);
    SumUpdate(Frees(a, y), s.orders, id, s'.orders[id]);
    PutHeld(s.positions, held.(availableQuantity := held.availableQuantity + free), a, y);
    assert Held(s.positions, a, y).availableQuantity >= 0.0;
  }

  lemma UnlockedBooks(s: Store, s': Store, id: nat, free: real)
    requires InBooks(s) && PocketsOnly(s, s') && Unlocks(s, s', id, free)
    ensures InBooks(s') && SameHoldings(s, s')
  {
    UnlockedMarks(s, s', id, free);
    forall b | b in s.accounts
      ensures s'.accounts[b].equity == Balance(s', b) + Sum(MarketValues(b), s'.positions)
      ensures s'.accounts[b].unrealizedPnl == Sum(UnrealizedPnls(b), s'.positions)
    {
      UnlockedTotals(s, s', id, free, b);
    }
    forall b, z
      ensures
        var was, now := Held(s.positions, b, z), Held(s'.positions, b, z);
        now.quantity == was.quantity && now.avgCost == was.avgCost && now.availableQuantity >= 0.0
    {
      UnlockedGaps(s, s', id, free, b, z);
      assert Held(s.positions, b, z).quantity >= 0.0;
    }
  }

  lemma SameHoldingsCosted(s: Store, s': Store)
    requires SameHoldings(s, s') && Costed(s.positions)
    ensures Costed(s'.positions)
  {
    forall b, z
      ensures IsCosted(Held(s'.positions, b, z))
    {
      assert IsCosted(Held(s.positions, b, z));
      assert Held(s'.positions, b, z).quantity == Held(s.positions, b, z).quantity;
    }
  }

  /** Positions change in what is available only, accounts between their pockets. */
  lemma PocketsMove(cfg: SimConfig, s: Store, s': Store, id: nat, free: real, a: AccountId, y: Symbol)
    requires InBooks(s) && a in s.accounts && PocketsOnly(s, s') && Unlocks(s, s', id, free)
    ensures Moves(cfg, s, s', a, y, 0.0, 0.0) && SameHoldings(s, s')
  {
    UnlockedBooks(s, s', id, free);
    UnlockedTotals(s, s', id, free, a);
    UnlockedGaps(s, s', id, free, a, y);
    if Costed(s.positions) {
      SameHoldingsCosted(s, s');
    }
  }

  lemma ReserveUnlocks(cfg: SimConfig, s: Store, id: nat, quote: Quote)
    requires NoShorts(s.positions) && id < |s.orders| && s.orders[id].status == RiskApproved
    requires Reserve(cfg, s, id, quote).Reserved?
    ensures
      var o, s' := s.orders[id], Accepted(cfg, s, id, quote);
      PocketsOnly(s, s') && Unlocks(s, s', id, if o.side == Buy || IsBracket(o) then 0.0 else -o.quantity)
  {
    AcceptShape(Reserve(cfg, s, id, quote).store, id);
    var o := s.orders[id];
    assert Held(s.positions, o.accountId, o.symbol).availableQuantity >= 0.0;
  }

  lemma CancelUnlocks(cfg: SimConfig, s: Store, id: nat)
    requires NoShorts(s.positions) && id < |s.orders| && s.orders[id].status == Submitted
    requires s.orders[id].quantity > 0.0 && s.orders[id].filledQuantity == 0.0 && Cancel(cfg, s, id).Ok?
    ensures
      var o, s' := s.orders[id], Cancel(cfg, s, id).value.0;
      PocketsOnly(s, s') && Unlocks(s, s', id, if o.side == Buy || IsBracket(o) then 0.0 else o.quantity)
  {
    CancelShape(cfg, s, id);
    var o := s.orders[id];
    assert Held(s.positions, o.accountId, o.symbol).availableQuantity >= 0.0;
  }

  // ---- fills --------------------------------------------------------------------------------------

  lemma FillGaps(cfg: SimConfig, s: Store, id: nat, price: real, a: AccountId, y: Symbol)
    requires id < |s.orders| && s.orders[id].status == Submitted && s.orders[id].accountId in s.accounts
    ensures ApplyFill(cfg, s, id, price).Ok?
    ensures
      var s' := ApplyFill(cfg, s, id, price).value;
      && NetGap(s', a, y) == NetGap(s, a, y) + FillTotal(LostShares(y), s.positions, s.orders[id], a)
      && FreeGap(s', a, y) == FreeGap(s, a, y)
  {
    FillShape(cfg, s, id, price);
    FillHeld(cfg, s, id, price, a, y);
    SumUpdate(Nets(a, y), s.orders, id, FilledRow(s.orders[id], price));
    SumUpdate(Frees(a, y), s.orders, id, FilledRow(s.orders[id], price));
  }

  lemma FillNoShorts(cfg: SimConfig, s: Store, id: nat, price: real)
    requires NoShorts(s.positions) && id < |s.orders| && s.orders[id].status == Submitted
    requires s.orders[id].quantity > 0.0 && s.orders[id].accountId in s.accounts
    ensures ApplyFill(cfg, s, id, price).Ok? && NoShorts(ApplyFill(cfg, s, id, price).value.positions)
  {
    FillShape(cfg, s, id, price);
    forall b, z
      ensures
        var now := Held(ApplyFill(cfg, s, id, price).value.positions, b, z);
        now.quantity >= 0.0 && now.availableQuantity >= 0.0
    {
      assert Held(s.positions, b, z).quantity >= 0.0;
      FillHeld(cfg, s, id, price, b, z);
    }
  }

  lemma AveragePositive(quantity: real, avgCost: real, fillQuantity: real, fillCost: real)
    requires quantity >= 0.0 && avgCost >= 0.0 && fillQuantity > 0.0 && fillCost > 0.0
    ensures WeightedAvgCost(quantity, avgCost, fillQuantity, fillCost) > 0.0
  {
    ProductNonNegative(quantity, avgCost);
  }

  lemma CostPositive(cfg: SimConfig, quantity: real, price: real)
    requires ValidConfig(cfg) && quantity > 0.0 && price > 0.0
    ensures CostAt(cfg, quantity, price) > 0.0
  {
    assert Amount(quantity, price) > 0.0;
    CommissionBounds(cfg, Amount(quantity, price));
  }

  lemma FilledIsCosted(cfg: SimConfig, held: Position, o: Order, price: real)
    requires ValidConfig(cfg) && held.quantity >= 0.0 && IsCosted(held) && o.quantity > 0.0 && price > 0.0
    ensures IsCosted(PositionAfter(cfg, held, o, price))
  {
    if o.side == Buy {
      CostPositive(cfg, o.quantity, price);
      AveragePositive(held.quantity, held.avgCost, o.quantity, CostAt(cfg, o.quantity, price));
    }
  }

  lemma FillCosted(cfg: SimConfig, s: Store, id: nat, price: real)
    requires ValidConfig(cfg) && NoShorts(s.positions) && Costed(s.positions) && id < |s.orders| && price > 0.0
    requires s.orders[id].quantity > 0.0 && s.orders[id].accountId in s.accounts
    ensures Costed(Settle(cfg, s, id, price).positions)
  {
    var o := s.orders[id];
    var held := Held(s.positions, o.accountId, o.symbol);
    assert held.quantity >= 0.0 && IsCosted(held);
    FilledIsCosted(cfg, held, o, price);
    forall b, y
      ensures IsCosted(Held(Settle(cfg, s, id, price).positions, b, y))
    {
      assert IsCosted(Held(s.positions, b, y));
      PutHeld(s.positions, PositionAfter(cfg, held, o, price), b, y);
    }
  }

  lemma FillMoves(cfg: SimConfig, s: Store, id: nat, price: real, a: AccountId, y: Symbol)
    requires InBooks(s) && a in s.accounts && id < |s.orders| && price > 0.0
    requires s.orders[id].status == Submitted && s.orders[id].quantity > 0.0 && s.orders[id].accountId in s.accounts
    ensures ApplyFill(cfg, s, id, price).Ok?
    ensures
      var o := s.orders[id];
      Moves(cfg, s, ApplyFill(cfg, s, id, price).value, a, y,
            FillTotal(LostBasis(), s.positions, o, a), FillTotal(LostShares(y), s.positions, o, a))
  {
    FillShape(cfg, s, id, price);
    FillValued(cfg, s, id, price);
    FillNoShorts(cfg, s, id, price);
    FillGaps(cfg, s, id, price, a, y);
    FilledWealth(cfg, s, id, price, a);
    if ValidConfig(cfg) && Costed(s.positions) {
      FillCosted(cfg, s, id, price);
    }
  }

  lemma FilledWealth(cfg: SimConfig, s: Store, id: nat, price: real, a: AccountId)
    requires NoShorts(s.positions) && a in s.accounts && id < |s.orders|
    requires s.orders[id].status == Submitted && s.orders[id].quantity > 0.0 && s.orders[id].accountId in s.accounts
    ensures ApplyFill(cfg, s, id, price).Ok? && a in ApplyFill(cfg, s, id, price).value.accounts
    ensures Wealth(ApplyFill(cfg, s, id, price).value, a)
         == Wealth(s, a) + FillTotal(LostBasis(), s.positions, s.orders[id], a)
  {
    FillShape(cfg, s, id, price);
    var o := s.orders[id];
    assert Held(s.positions, o.accountId, o.symbol).quantity >= 0.0;
    SettleCash(cfg, s, id, price, a);
    SettleWealth(cfg, s, id, price, a, FillTotal(LostBasis(), s.positions, o, a));
  }

  lemma MatchMoves(cfg: SimConfig, s: Store, id: nat, quote: Quote, a: AccountId, y: Symbol)
    requires InBooks(s) && a in s.accounts && id < |s.orders| && ValidQuote(quote)
    requires s.orders[id].status == Submitted && s.orders[id].quantity > 0.0 && s.orders[id].accountId in s.accounts
    ensures Match(cfg, s, id, quote).Ok?
    ensures Moves(cfg, s, Match(cfg, s, id, quote).value, a, y,
            MatchTotal(LostBasis(), s, id, quote, a), MatchTotal(LostShares(y), s, id, quote, a))
  {
    var price := FillPrice(s.orders[id], quote);
    if price.Some? {
      assert price.value > 0.0;
      FillMoves(cfg, s, id, price.value, a, y);
    }
  }

  /** What a fill loses depends on quantity and average cost held only. */
  lemma SameTotals(s: Store, s': Store, o: Order, o': Order, a: AccountId, y: Symbol)
    requires SameHoldings(s, s') && o'.accountId == o.accountId && o'.symbol == o.symbol
    requires o'.side == o.side && o'.quantity == o.quantity
    ensures FillTotal(LostBasis(), s'.positions, o', a) == FillTotal(LostBasis(), s.positions, o, a)
    ensures FillTotal(LostShares(y), s'.positions, o', a) == FillTotal(LostShares(y), s.positions, o, a)
  {
    assert Held(s'.positions, a, o.symbol).quantity == Held(s.positions, a, o.symbol).quantity;
    assert Held(s'.positions, a, o.symbol).avgCost == Held(s.positions, a, o.symbol).avgCost;
  }

  lemma AcceptMoves(cfg: SimConfig, s: Store, id: nat, quote: Quote, a: AccountId, y: Symbol)
    requires InBooks(s) && a in s.accounts && id < |s.orders| && s.orders[id].status == RiskApproved
    requires Reserve(cfg, s, id, quote).Reserved?
    ensures Moves(cfg, s, Accepted(cfg, s, id, quote), a, y, 0.0, 0.0) && SameHoldings(s, Accepted(cfg, s, id, quote))
  {
    ReserveUnlocks(cfg, s, id, quote);
    var o := s.orders[id];
    var free := if o.side == Buy || IsBracket(o) then 0.0 else -o.quantity;
    PocketsMove(cfg, s, Accepted(cfg, s, id, quote), id, free, a, y);
  }

  lemma AcceptedTotals(cfg: SimConfig, s: Store, id: nat, quote: Quote, a: AccountId, y: Symbol)
    requires id < |s.orders| && s.orders[id].status == RiskApproved && Reserve(cfg, s, id, quote).Reserved?
    requires SameHoldings(s, Accepted(cfg, s, id, quote))
    ensures
      var accepted := Accepted(cfg, s, id, quote);
      && MatchTotal(LostBasis(), accepted, id, quote, a) == MatchTotal(LostBasis(), s, id, quote, a)
      && MatchTotal(LostShares(y), accepted, id, quote, a) == MatchTotal(LostShares(y), s, id, quote, a)
  {
    AcceptedShape(cfg, s, id, quote);
    var o, accepted := s.orders[id], Accepted(cfg, s, id, quote);
    SameTotals(s, accepted, o, accepted.orders[id], a, y);
    assert FillPrice(accepted.orders[id], quote) == FillPrice(o, quote);
  }

  lemma SubmittedMoves(cfg: SimConfig, s: Store, id: nat, quote: Quote, a: AccountId, y: Symbol)
    requires InBooks(s) && a in s.accounts && id < |s.orders| && s.orders[id].quantity > 0.0 && ValidQuote(quote)
    requires s.orders[id].status == RiskApproved && Reserve(cfg, s, id, quote).Reserved?
    ensures
      var matched := Match(cfg, Accepted(cfg, s, id, quote), id, quote);
      matched.Ok? && Moves(cfg, s, matched.value, a, y,
            MatchTotal(LostBasis(), s, id, quote, a), MatchTotal(LostShares(y), s, id, quote, a))
  {
    AcceptedShape(cfg, s, id, quote);
    AcceptMoves(cfg, s, id, quote, a, y);
    AcceptedTotals(cfg, s, id, quote, a, y);
    MatchMoves(cfg, Accepted(cfg, s, id, quote), id, quote, a, y);
  }

  lemma SubmitMoves(cfg: SimConfig, s: Store, id: nat, quote: Quote, a: AccountId, y: Symbol)
    requires Sane(s) && a in s.accounts && id < |s.orders| && ValidQuote(quote)
    ensures Submit(cfg, s, id, quote).Ok? && AtRest(Submit(cfg, s, id, quote).value.0)
    ensures Moves(cfg, s, Submit(cfg, s, id, quote).value.0, a, y,
            SubmitTotal(LostBasis(), cfg, s, id, quote, a), SubmitTotal(LostShares(y), cfg, s, id, quote, a))
  {
    SubmitAtRest(cfg, s, id, quote);
    SubmitShape(cfg, s, id, quote);
    var o := s.orders[id];
    if o.status == RiskApproved {
      if quote.symbol == o.symbol && Reserve(cfg, s, id, quote).Reserved? {
        assert RowOk(s, o);
        SubmitReserved(cfg, s, id, quote);
        SubmittedMoves(cfg, s, id, quote, a, y);
      } else {
        var event := if quote.symbol != o.symbol then SimSymbolMismatch else SimReservationFailed;
        RowMoves(cfg, s, Refuse(s, id, event).value.0, id, a, y);
      }
    }
  }

  lemma CancelledMoves(cfg: SimConfig, s: Store, id: nat, a: AccountId, y: Symbol)
    requires InBooks(s) && a in s.accounts && id < |s.orders| && s.orders[id].status == Submitted
    requires s.orders[id].quantity > 0.0 && s.orders[id].filledQuantity == 0.0 && Cancel(cfg, s, id).Ok?
    ensures Moves(cfg, s, Cancel(cfg, s, id).value.0, a, y, 0.0, 0.0)
  {
    CancelUnlocks(cfg, s, id);
    var o := s.orders[id];
    var free := if o.side == Buy || IsBracket(o) then 0.0 else o.quantity;
    PocketsMove(cfg, s, Cancel(cfg, s, id).value.0, id, free, a, y);
  }

  lemma CancelMoves(cfg: SimConfig, s: Store, id: nat, a: AccountId, y: Symbol)
    requires Sane(s) && a in s.accounts && id < |s.orders| && Cancel(cfg, s, id).Ok?
    ensures Moves(cfg, s, Cancel(cfg, s, id).value.0, a, y, 0.0, 0.0)
  {
    if s.orders[id].status == Submitted {
      assert RowOk(s, s.orders[id]);
      CancelledMoves(cfg, s, id, a, y);
    }
  }

  lemma {:induction false} RowsMove(cfg: SimConfig, s: Store, quote: Quote, rows: seq<nat>, a: AccountId, y: Symbol)
    requires Sane(s) && ValidQuote(quote) && a in s.accounts
    requires forall i :: 0 <= i < |rows| ==> rows[i] < |s.orders| && s.orders[rows[i]].status == Submitted
    requires forall i, j :: 0 <= i < j < |rows| ==> rows[i] != rows[j]
    ensures MatchRows(cfg, s, quote, rows).Ok?
    ensures Moves(cfg, s, MatchRows(cfg, s, quote, rows).value, a, y,
            RowsTotal(LostBasis(), cfg, s, quote, rows, a), RowsTotal(LostShares(y), cfg, s, quote, rows, a))
  {
    if rows != [] {
      var last := |rows| - 1;
      RowsMove(cfg, s, quote, rows[..last], a, y);
      var before := MatchRows(cfg, s, quote, rows[..last]).value;
      RowStays(cfg, s, quote, rows);
      MatchMoves(cfg, before, rows[last], quote, a, y);
    }
  }

  // ---- the executor -----------------------------------------------------------------------------------

  /** An accepted submission at the order's own limit fills. */
  lemma FlatSubmitMoves(cfg: SimConfig, s: Store, id: nat, price: real, a: AccountId, y: Symbol)
    requires Sane(s) && a in s.accounts && id < |s.orders| && price > 0.0
    requires s.orders[id].status == RiskApproved && s.orders[id].limitPrice == Some(price)
    ensures
      var o, r := s.orders[id], Submit(cfg, s, id, FlatQuote(s.orders[id].symbol, price));
      && r.Ok? && AtRest(r.value.0)
      && (r.value.1.accepted ==> Moves(cfg, s, r.value.0, a, y,
            FillTotal(LostBasis(), s.positions, o, a), FillTotal(LostShares(y), s.positions, o, a)))
  {
    var quote := FlatQuote(s.orders[id].symbol, price);
    SubmitMoves(cfg, s, id, quote, a, y);
    SubmitShape(cfg, s, id, quote);
    FlatQuoteFills(s.orders[id], s.orders[id].symbol, price);
    if Reserve(cfg, s, id, quote).Refused? {
      SimRefusedRow(s, id);
    }
  }

  /** The order after its risk check: same request, same books. */
  lemma MainReady(cfg: SimConfig, risk: RiskConfig, s: Store, req: Request, intent: Intent, a: AccountId, y: Symbol)
    requires AtRest(s) && SubmitMain(UseSim(cfg), risk, s, req, intent).Ok?
    ensures
      var (created, id) := CreateOrder(s, intent, req.now);
      var ctx := Context(Some(FlatQuote(intent.symbol, intent.limitPrice.value)), req.marketOpen, req.now);
      var checked := RunRiskCheck(risk, created, id, ctx);
      && checked.Ok? && AtRest(checked.value) && SameBalances(s, checked.value) && SameTrades(s, checked.value, a, y)
      && id < |checked.value.orders| && SameKey(checked.value.orders[id], intent)
      && checked.value.orders[id].status == RiskApproved
  {
    var ctx := Context(Some(FlatQuote(intent.symbol, intent.limitPrice.value)), req.marketOpen, req.now);
    CreateAtRest(cfg, s, intent, req.now);
    var (created, id) := CreateOrder(s, intent, req.now);
    RiskAtRest(cfg, risk, created, id, ctx);
    CheckedRow(risk, created, id, ctx);
    NewRowTrades(s, intent, req.now, a, y);
    RowTrades(created, RunRiskCheck(risk, created, id, ctx).value, id, a, y);
  }

  lemma ReadyMoves(cfg: SimConfig, s: Store, ready: Store, id: nat, intent: Intent, a: AccountId, y: Symbol)
    requires InBooks(s) && a in s.accounts && AtRest(ready) && SameBalances(s, ready) && SameTrades(s, ready, a, y)
    requires id < |ready.orders| && ready.orders[id].status == RiskApproved && SameKey(ready.orders[id], intent)
    requires intent.limitPrice.Some? && intent.limitPrice.value > 0.0
    ensures
      var r := Submit(cfg, ready, id, FlatQuote(intent.symbol, intent.limitPrice.value));
      && r.Ok? && AtRest(r.value.0)
      && (r.value.1.accepted ==> Moves(cfg, s, r.value.0, a, y,
            FillTotal(LostBasis(), s.positions, NewOrder(intent, 0), a),
            FillTotal(LostShares(y), s.positions, NewOrder(intent, 0), a)))
  {
    QuietMoves(cfg, s, ready, a, y);
    FlatSubmitMoves(cfg, ready, id, intent.limitPrice.value, a, y);
    SameTotals(s, ready, NewOrder(intent, 0), ready.orders[id], a, y);
  }

  lemma MainMoves(cfg: SimConfig, risk: RiskConfig, s: Store, req: Request, intent: Intent, a: AccountId, y: Symbol)
    requires Sane(s) && a in s.accounts && SubmitMain(UseSim(cfg), risk, s, req, intent).Ok?
    ensures
      var main := SubmitMain(UseSim(cfg), risk, s, req, intent).value.0;
      AtRest(main) && Moves(cfg, s, main, a, y,
            FillTotal(LostBasis(), s.positions, NewOrder(intent, 0), a),
            FillTotal(LostShares(y), s.positions, NewOrder(intent, 0), a))
  {
    MainReady(cfg, risk, s, req, intent, a, y);
    var (created, id) := CreateOrder(s, intent, req.now);
    var ctx := Context(Some(FlatQuote(intent.symbol, intent.limitPrice.value)), req.marketOpen, req.now);
    ReadyMoves(cfg, s, RunRiskCheck(risk, created, id, ctx).value, id, intent, a, y);
  }

  lemma ChildReady(cfg: SimConfig, s: Store, intent: Intent, now: int, a: AccountId, y: Symbol)
    requires AtRest(s) && ValidIntent(intent)
    requires
      var (created, id) := CreateOrder(s, intent, now);
      Transition(created, id, RiskApproved, BracketAutoApproved).Ok?
    ensures
      var (created, id) := CreateOrder(s, intent, now);
      var approved := Transition(created, id, RiskApproved, BracketAutoApproved).value;
      && AtRest(approved) && SameBalances(s, approved) && SameTrades(s, approved, a, y)
      && id < |approved.orders| && SameKey(approved.orders[id], intent) && approved.orders[id].status == RiskApproved
  {
    CreateAtRest(cfg, s, intent, now);
    var (created, id) := CreateOrder(s, intent, now);
    ApproveAtRest(cfg, created, id, RiskApproved, BracketAutoApproved);
    NewRowTrades(s, intent, now, a, y);
    RowTrades(created, Transition(created, id, RiskApproved, BracketAutoApproved).value, id, a, y);
  }

  lemma ChildMoves(cfg: SimConfig, s: Store, parent: Intent, orderType: OrderType, price: Option<real>,
                   reply: Reply, now: int, a: AccountId, y: Symbol)
    requires Sane(s) && a in s.accounts && SubmitChild(UseSim(cfg), s, parent, orderType, price, reply, now).Ok?
    requires orderType in {LimitIfTouched, StopLimit} && parent.accountId in s.accounts && NoneWaiting(s, parent.signal)
    ensures
      var s' := SubmitChild(UseSim(cfg), s, parent, orderType, price, reply, now).value.0;
      AtRest(s') && Moves(cfg, s, s', a, y,
            ChildTotal(LostBasis(), s, parent, orderType, price, a),
            ChildTotal(LostShares(y), s, parent, orderType, price, a))
  {
    if parent.side == Buy && Wanted(price) {
      var intent := Child(parent, orderType, price);
      ChildReady(cfg, s, intent, now, a, y);
      var (created, id) := CreateOrder(s, intent, now);
      var approved := Transition(created, id, RiskApproved, BracketAutoApproved).value;
      ReadyMoves(cfg, s, approved, id, intent, a, y);
      ChildIsTaken(cfg, s, intent, now);
    }
  }

  /** The paper broker refuses no protective child of a known account. */
  lemma ChildIsTaken(cfg: SimConfig, s: Store, intent: Intent, now: int)
    requires NoneWaiting(s, intent.signal) && intent.accountId in s.accounts && intent.limitPrice.Some?
    requires intent.side == Sell && intent.orderType in {LimitIfTouched, StopLimit}
    requires
      var (created, id) := CreateOrder(s, intent, now);
      Transition(created, id, RiskApproved, BracketAutoApproved).Ok?
    ensures
      var (created, id) := CreateOrder(s, intent, now);
      var approved := Transition(created, id, RiskApproved, BracketAutoApproved).value;
      var r := Submit(cfg, approved, id, FlatQuote(intent.symbol, intent.limitPrice.value));
      r.Ok? && r.value.1.accepted
  {
    NewOrderAppended(s, intent, now);
    var (created, id) := CreateOrder(s, intent, now);
    var approved := Transition(created, id, RiskApproved, BracketAutoApproved).value;
    SimSubmitRow(cfg, approved, id, intent.limitPrice.value);
  }

  lemma ExecuteMoves(cfg: SimConfig, risk: RiskConfig, s: Store, req: Request, a: AccountId, y: Symbol)
    requires Sane(s) && a in s.accounts && NoneWaiting(s, Some(|s.signals|)) && Execute(UseSim(cfg), risk, s, req).Ok?
    ensures Moves(cfg, s, Execute(UseSim(cfg), risk, s, req).value.0, a, y,
            ExecuteTotal(LostBasis(), cfg, risk, s, req, a), ExecuteTotal(LostShares(y), cfg, risk, s, req, a))
  {
    var p := req.proposal;
    if TraceIndex(s, req.trace, req.strategy, p.symbol, 0) == |s.orders| {
      var signalled := s.(signals := s.signals + [Signal(req.trace, req.strategy, p.symbol)]);
      SameMoneyAtRest(cfg, s, signalled);
      QuietMoves(cfg, s, signalled, a, y);
      var intent := MainIntent(req, |s.signals|);
      MainMoves(cfg, risk, signalled, req, intent, a, y);
      MainOutcome(UseSim(cfg), risk, signalled, req, intent);
      var (main, id) := SubmitMain(UseSim(cfg), risk, signalled, req, intent).value;
      ChildMoves(cfg, main, intent, LimitIfTouched, p.takeProfit, req.profitReply, req.now, a, y);
      MaybeChild(UseSim(cfg), main, intent, LimitIfTouched, p.takeProfit, req.profitReply, req.now);
      var profit :=
        SubmitChild(UseSim(cfg), main, intent, LimitIfTouched, p.takeProfit, req.profitReply, req.now).value.0;
      ChildMoves(cfg, profit, intent, StopLimit, p.stopLoss, req.lossReply, req.now, a, y);
      var loss := SubmitChild(UseSim(cfg), profit, intent, StopLimit, p.stopLoss, req.lossReply, req.now).value.0;
      QuietMoves(cfg, loss, Record(loss, TradeApproved, id), a, y);
    }
  }

  // ---- every step, every run -------------------------------------------------------------------------

  lemma CheckedMoves(cfg: SimConfig, risk: RiskConfig, s: Store, id: nat, ctx: Context, a: AccountId, y: Symbol)
    requires InBooks(s) && a in s.accounts && id < |s.orders|
    requires (ctx.quote.Some? ==> ValidQuote(ctx.quote.value)) && RunRiskCheck(risk, s, id, ctx).Ok?
    ensures Moves(cfg, s, RunRiskCheck(risk, s, id, ctx).value, a, y, 0.0, 0.0)
  {
    CheckedRow(risk, s, id, ctx);
    RowMoves(cfg, s, RunRiskCheck(risk, s, id, ctx).value, id, a, y);
  }

  lemma ApprovedMoves(cfg: SimConfig, s: Store, id: nat, a: AccountId, y: Symbol)
    requires InBooks(s) && a in s.accounts && id < |s.orders|
    requires Transition(s, id, RiskApproved, BracketAutoApproved).Ok?
    ensures Moves(cfg, s, Transition(s, id, RiskApproved, BracketAutoApproved).value, a, y, 0.0, 0.0)
  {
    RowMoves(cfg, s, Transition(s, id, RiskApproved, BracketAutoApproved).value, id, a, y);
  }

  lemma StepMoves(cfg: Config, s: Store, step: Step, a: AccountId, y: Symbol)
    requires Sane(s) && a in s.accounts && NoneWaiting(s, Some(|s.signals|))
    requires Enabled(cfg, s, step) && IsLocal(cfg, step)
    ensures Moves(cfg.sim, s, Apply(cfg, s, step), a, y,
            StepTotal(LostBasis(), cfg, s, step, a), StepTotal(LostShares(y), cfg, s, step, a))
  {
    if Call(cfg, s, step).Ok? {
      match step
      case StepCreate(intent, now) => CreatedMoves(cfg.sim, s, intent, now, a, y);
      case StepRisk(id, ctx) => CheckedMoves(cfg.sim, cfg.risk, s, id, ctx, a, y);
      case StepBracket(id) => ApprovedMoves(cfg.sim, s, id, a, y);
      case StepSimSubmit(id, quote) => SubmitMoves(cfg.sim, s, id, quote, a, y);
      case StepSimCancel(id) => CancelMoves(cfg.sim, s, id, a, y);
      case StepSimQuote(quote, rows) => RowsMove(cfg.sim, s, quote, rows, a, y);
      case StepExecute(broker, req) => ExecuteMoves(cfg.sim, cfg.risk, s, req, a, y);
    }
  }

  /** What the fills of the first `i` steps of a run come to. */
  ghost function Total(f: (Position, Order) -> real, cfg: Config, states: seq<Store>, steps: seq<Step>, i: nat,
                       a: AccountId): real
    requires IsRun(cfg, states, steps) && i <= |steps|
  {
    if i == 0 then 0.0
    else Total(f, cfg, states, steps, i - 1, a) + StepTotal(f, cfg, states[i - 1], steps[i - 1], a)
  }

  lemma RunStepMoves(cfg: Config, states: seq<Store>, steps: seq<Step>, i: nat, a: AccountId, y: Symbol)
    requires IsLocalRun(cfg, states, steps) && IsOpening(states[0]) && i < |steps|
    requires InBooks(states[i]) && a in states[i].accounts
    ensures Moves(cfg.sim, states[i], states[i + 1], a, y,
            StepTotal(LostBasis(), cfg, states[i], steps[i], a), StepTotal(LostShares(y), cfg, states[i], steps[i], a))
  {
    assert Enabled(cfg, states[i], steps[i]) && states[i + 1] == Apply(cfg, states[i], steps[i]);
    RunKeepsCash(cfg, states, steps, i);
    NextSignalIsNew(cfg, states, steps, i);
    StepMoves(cfg, states[i], steps[i], a, y);
  }

  lemma {:induction false} RunMoves(cfg: Config, states: seq<Store>, steps: seq<Step>, i: nat, a: AccountId, y: Symbol)
    requires IsLocalRun(cfg, states, steps) && IsOpening(states[0]) && i < |states| && a in states[0].accounts
    ensures Moves(cfg.sim, states[0], states[i], a, y, Total(LostBasis(), cfg, states, steps, i, a),
      Total(LostShares(y), cfg, states, steps, i, a))
  {
    if i > 0 {
      RunMoves(cfg, states, steps, i - 1, a, y);
      RunStepMoves(cfg, states, steps, i - 1, a, y);
    }
  }

  /** On every local run, brackets included: wealth is the opening cash plus the basis
      that uncovered sales lost, and equity exceeds opening cash and profit by it. */
  lemma BasisTheorem(cfg: Config, states: seq<Store>, steps: seq<Step>, i: nat, a: AccountId)
    requires IsLocalRun(cfg, states, steps) && IsOpening(states[0]) && i < |states| && a in states[0].accounts
    ensures a in states[i].accounts
    ensures
      var opening, s := states[0].accounts[a].cashAvailable, states[i];
      var account, lost := s.accounts[a], Total(LostBasis(), cfg, states, steps, i, a);
      && Balance(s, a) + Sum(Bases(a), s.positions) - account.realizedPnl == opening + lost
      && account.equity == opening + account.realizedPnl + account.unrealizedPnl + lost
  {
    RunMoves(cfg, states, steps, i, a, 0);
    SumLinear(UnrealizedPnls(a), MarketValues(a), Bases(a), states[i].positions);
  }

  /** On every local run, brackets included: the available shares and those that resting
      sells lock are the shares bought less those sold by ordinary sells; the shares
      held are all bought less all sold, plus what sales found nothing to take off;
      neither is ever negative. */
  lemma StockTheorem(cfg: Config, states: seq<Store>, steps: seq<Step>, i: nat, a: AccountId, y: Symbol)
    requires IsLocalRun(cfg, states, steps) && IsOpening(states[0]) && i < |states| && a in states[0].accounts
    ensures
      var s := states[i];
      var held := Held(s.positions, a, y);
      && held.availableQuantity + Sum(Locks(a, y), s.orders) == Sum(OrdinaryNets(a, y), s.orders)
      && held.quantity == Sum(Nets(a, y), s.orders) + Total(LostShares(y), cfg, states, steps, i, a)
      && held.availableQuantity >= 0.0 && held.quantity >= 0.0
  {
    RunMoves(cfg, states, steps, i, a, y);
    assert FreeGap(states[i], a, y) == 0.0;
    SumLinear(Frees(a, y), OrdinaryNets(a, y), Locks(a, y), states[i].orders);
  }
}
