/** Cash of the paper broker: at rest the frozen cash is what the resting buys
    reserve, and the whole balance is a function of the orders and of the ledger.
    Runs may contain bracket orders. */
module Cash {
  import opened Domain
  import opened Sums
  import opened Tables
  import opened Pricing
  import opened OrderService
  import opened Risk
  import opened LocalSim

  // ---- net effect of the composite operations ----------------------------------

  function FilledRow(o: Order, price: real): Order {
    o.(status := Filled, filledQuantity := o.quantity, avgFillPrice := Some(price))
  }

  function AcceptedRow(o: Order, id: nat): Order {
    o.(status := Submitted, brokerOrderId := Some(LocalSimId(id)))
  }

  /** Same money, same shares; only logs, notices or signals may differ. */
  predicate SameBalances(s: Store, s': Store) {
    s'.accounts == s.accounts && s'.positions == s.positions && s'.cashLedger == s.cashLedger
  }

  lemma FillShape(cfg: SimConfig, s: Store, id: nat, price: real)
    requires id < |s.orders| && s.orders[id].status == Submitted && s.orders[id].accountId in s.accounts
    ensures ApplyFill(cfg, s, id, price).Ok?
    ensures
      var s', settled := ApplyFill(cfg, s, id, price).value, Settle(cfg, s, id, price);
      s'.orders == s.orders[id := FilledRow(s.orders[id], price)] && SameBalances(settled, s')
  {
  }

  lemma AcceptShape(s: Store, id: nat)
    requires id < |s.orders| && s.orders[id].status == RiskApproved
    ensures Accept(s, id).Ok?
    ensures
      var s' := Accept(s, id).value;
      s'.orders == s.orders[id := AcceptedRow(s.orders[id], id)] && SameBalances(s, s')
  {
  }

  lemma CancelShape(cfg: SimConfig, s: Store, id: nat)
    requires id < |s.orders| && s.orders[id].status == Submitted
    ensures
      var pending := SetOrder(s, id, s.orders[id].(status := CancelPending));
      match Release(cfg, pending, id)
      case Raised(_) => Cancel(cfg, s, id).Raised?
      case Ok(released) =>
        && Cancel(cfg, s, id).Ok?
        && var s' := Cancel(cfg, s, id).value.0;
           s'.orders == s.orders[id := s.orders[id].(status := Cancelled)] && SameBalances(released, s')
  {
  }

  // ---- what is conserved ----------------------------------------------------------

  /** What a resting buy reserves; `p` stands in for a missing limit price. */
  function Reserves(cfg: SimConfig, a: AccountId, p: real): Order -> real {
    (o: Order) =>
      if o.status == Submitted && o.side == Buy && o.accountId == a then
        CostAt(cfg, o.quantity, Or(o.limitPrice, p))
      else 0.0
  }

  /** What a filled order moved. */
  function CashFlows(cfg: SimConfig, a: AccountId): Order -> real {
    (o: Order) =>
      if o.status == Filled && o.accountId == a then CashAmount(cfg, o, Or(o.avgFillPrice, 0.0)) else 0.0
  }

  function LedgerAmounts(a: AccountId): LedgerRow -> real {
    (row: LedgerRow) => if row.accountId == a then row.amount else 0.0
  }

  function Balance(s: Store, a: AccountId): real
    requires a in s.accounts
  {
    s.accounts[a].cashAvailable + s.accounts[a].cashFrozen
  }

  function FrozenGap(cfg: SimConfig, s: Store, a: AccountId, p: real): real
    requires a in s.accounts
  {
    s.accounts[a].cashFrozen - Sum(Reserves(cfg, a, p), s.orders)
  }

  function CashGap(cfg: SimConfig, s: Store, a: AccountId): real
    requires a in s.accounts
  {
    Balance(s, a) - Sum(CashFlows(cfg, a), s.orders)
  }

  function LedgerGap(s: Store, a: AccountId): real
    requires a in s.accounts
  {
    Balance(s, a) - Sum(LedgerAmounts(a), s.cashLedger)
  }

  /** The three differences of every account are the same in both stores. */
  ghost predicate CashConserved(cfg: SimConfig, s: Store, s': Store, p: real) {
    && s'.accounts.Keys == s.accounts.Keys
    && forall a :: a in s.accounts ==>
         && FrozenGap(cfg, s', a, p) == FrozenGap(cfg, s, a, p)
         && CashGap(cfg, s', a) == CashGap(cfg, s, a)
         && LedgerGap(s', a) == LedgerGap(s, a)
  }

  /** Frozen cash and balance move as the one row that changes says. */
  lemma RowGaps(cfg: SimConfig, s: Store, s': Store, id: nat, a: AccountId, p: real)
    requires id < |s.orders| == |s'.orders| && s'.orders == s.orders[id := s'.orders[id]]
    requires a in s.accounts && a in s'.accounts
    requires s'.accounts[a].cashFrozen - s.accounts[a].cashFrozen
          == Reserves(cfg, a, p)(s'.orders[id]) - Reserves(cfg, a, p)(s.orders[id])
    requires Balance(s', a) - Balance(s, a) == CashFlows(cfg, a)(s'.orders[id]) - CashFlows(cfg, a)(s.orders[id])
    ensures FrozenGap(cfg, s', a, p) == FrozenGap(cfg, s, a, p) && CashGap(cfg, s', a) == CashGap(cfg, s, a)
  {
    SumUpdate(Reserves(cfg, a, p), s.orders, id, s'.orders[id]);
    SumUpdate(CashFlows(cfg, a), s.orders, id, s'.orders[id]);
  }

  /** A row change that touches no resting buy and no fill moves no money. */
  lemma QuietRowConservesCash(cfg: SimConfig, s: Store, s': Store, id: nat, p: real)
    requires id < |s.orders| == |s'.orders| && SameBalances(s, s')
    requires s'.orders == s.orders[id := s'.orders[id]]
    requires s.orders[id].status !in {Submitted, Filled} || s'.orders[id] == s.orders[id]
    requires s'.orders[id].status !in {Submitted, Filled} || s'.orders[id] == s.orders[id]
    ensures CashConserved(cfg, s, s', p)
  {
    forall a | a in s.accounts
      ensures FrozenGap(cfg, s', a, p) == FrozenGap(cfg, s, a, p)
      ensures CashGap(cfg, s', a) == CashGap(cfg, s, a)
    {
      SumUpdate(Reserves(cfg, a, p), s.orders, id, s'.orders[id]);
      SumUpdate(CashFlows(cfg, a), s.orders, id, s'.orders[id]);
    }
  }

  lemma SettleCash(cfg: SimConfig, s: Store, id: nat, price: real, a: AccountId)
    requires id < |s.orders| && s.orders[id].accountId in s.accounts && a in s.accounts
    ensures
      var o, was := s.orders[id], s.accounts[a];
      var s' := Settle(cfg, s, id, price);
      var cost := CostAt(cfg, o.quantity, Or(o.limitPrice, price));
      && s'.accounts.Keys == s.accounts.Keys
      && s'.accounts[a].cashFrozen
         == was.cashFrozen - (if a == o.accountId && o.side == Buy then cost else 0.0)
      && Balance(s', a) == Balance(s, a) + (if a == o.accountId then CashAmount(cfg, o, price) else 0.0)
      && LedgerGap(s', a) == LedgerGap(s, a)
  {
    var s' := Settle(cfg, s, id, price);
    SumAppend(LedgerAmounts(a), s.cashLedger, s'.cashLedger[|s.cashLedger|]);
  }

  lemma FillConservesCash(cfg: SimConfig, s: Store, id: nat, price: real, p: real)
    requires id < |s.orders| && s.orders[id].status == Submitted && s.orders[id].accountId in s.accounts
    requires s.orders[id].side == Buy && s.orders[id].limitPrice.None? ==> price == p
    ensures ApplyFill(cfg, s, id, price).Ok?
    ensures CashConserved(cfg, s, ApplyFill(cfg, s, id, price).value, p)
  {
    FillShape(cfg, s, id, price);
    var s' := ApplyFill(cfg, s, id, price).value;
    forall a | a in s.accounts
      ensures FrozenGap(cfg, s', a, p) == FrozenGap(cfg, s, a, p)
      ensures CashGap(cfg, s', a) == CashGap(cfg, s, a)
      ensures LedgerGap(s', a) == LedgerGap(s, a)
    {
      SettleCash(cfg, s, id, price, a);
      RowGaps(cfg, s, s', id, a, p);
    }
  }

  lemma ReserveCash(cfg: SimConfig, s: Store, id: nat, quote: Quote, a: AccountId)
    requires id < |s.orders| && a in s.accounts && Reserve(cfg, s, id, quote).Reserved?
    ensures
      var o, s' := s.orders[id], Reserve(cfg, s, id, quote).store;
      var cost := CostAt(cfg, o.quantity, Or(o.limitPrice, Ask(quote)));
      && s'.orders == s.orders && s'.cashLedger == s.cashLedger && s'.accounts.Keys == s.accounts.Keys
      && s'.accounts[a].cashFrozen
         == s.accounts[a].cashFrozen + (if a == o.accountId && o.side == Buy then cost else 0.0)
      && Balance(s', a) == Balance(s, a)
  {
  }

  /** The store in which a reserved order has been accepted but not yet matched. */
  function Accepted(cfg: SimConfig, s: Store, id: nat, quote: Quote): (s': Store)
    requires id < |s.orders| && s.orders[id].status == RiskApproved
    requires Reserve(cfg, s, id, quote).Reserved?
    ensures |s'.orders| == |s.orders|
  {
    AcceptShape(Reserve(cfg, s, id, quote).store, id);
    Accept(Reserve(cfg, s, id, quote).store, id).value
  }

  /** Reserving and accepting moves cash from available to frozen, by exactly what
      the now resting order reserves. */
  lemma AcceptConservesCash(cfg: SimConfig, s: Store, id: nat, quote: Quote)
    requires id < |s.orders| && s.orders[id].status == RiskApproved
    requires Reserve(cfg, s, id, quote).Reserved?
    ensures CashConserved(cfg, s, Accepted(cfg, s, id, quote), Ask(quote))
  {
    forall a | a in s.accounts { AcceptedGaps(cfg, s, id, quote, a); }
  }

  lemma AcceptedGaps(cfg: SimConfig, s: Store, id: nat, quote: Quote, a: AccountId)
    requires id < |s.orders| && s.orders[id].status == RiskApproved && a in s.accounts
    requires Reserve(cfg, s, id, quote).Reserved?
    ensures
      var s', p := Accepted(cfg, s, id, quote), Ask(quote);
      && s'.accounts.Keys == s.accounts.Keys && LedgerGap(s', a) == LedgerGap(s, a)
      && FrozenGap(cfg, s', a, p) == FrozenGap(cfg, s, a, p) && CashGap(cfg, s', a) == CashGap(cfg, s, a)
  {
    AcceptShape(Reserve(cfg, s, id, quote).store, id);
    ReserveCash(cfg, s, id, quote, a);
    RowGaps(cfg, s, Accepted(cfg, s, id, quote), id, a, Ask(quote));
  }

  lemma ReleaseCash(cfg: SimConfig, s: Store, id: nat, a: AccountId)
    requires id < |s.orders| && s.orders[id].limitPrice.Some? && a in s.accounts && Release(cfg, s, id).Ok?
    ensures
      var o, s' := s.orders[id], Release(cfg, s, id).value;
      && s'.accounts.Keys == s.accounts.Keys && s'.cashLedger == s.cashLedger
      && s'.accounts[a].cashFrozen == s.accounts[a].cashFrozen
           - (if a == o.accountId && o.side == Buy then CostAt(cfg, o.quantity, o.limitPrice.value) else 0.0)
      && Balance(s', a) == Balance(s, a)
  {
  }

  /** A cancel gives back exactly what the resting order reserved. */
  lemma CancelConservesCash(cfg: SimConfig, s: Store, id: nat, p: real)
    requires id < |s.orders| && s.orders[id].status == Submitted
    requires s.orders[id].limitPrice.Some? && Cancel(cfg, s, id).Ok?
    ensures CashConserved(cfg, s, Cancel(cfg, s, id).value.0, p)
  {
    CancelShape(cfg, s, id);
    var released := Release(cfg, SetOrder(s, id, s.orders[id].(status := CancelPending)), id).value;
    forall a | a in s.accounts { CancelledGaps(cfg, s, Cancel(cfg, s, id).value.0, released, id, p, a); }
  }

  lemma CancelledGaps(cfg: SimConfig, s: Store, s': Store, released: Store, id: nat, p: real, a: AccountId)
    requires id < |s.orders| && s.orders[id].status == Submitted && s.orders[id].limitPrice.Some? && a in s.accounts
    requires Release(cfg, SetOrder(s, id, s.orders[id].(status := CancelPending)), id) == Ok(released)
    requires s'.orders == s.orders[id := s.orders[id].(status := Cancelled)] && SameBalances(released, s')
    ensures s'.accounts.Keys == s.accounts.Keys && LedgerGap(s', a) == LedgerGap(s, a)
    ensures FrozenGap(cfg, s', a, p) == FrozenGap(cfg, s, a, p) && CashGap(cfg, s', a) == CashGap(cfg, s, a)
  {
    ReleaseCash(cfg, SetOrder(s, id, s.orders[id].(status := CancelPending)), id, a);
    RowGaps(cfg, s, s', id, a, p);
  }

  // ---- stores at rest -----------------------------------------------------------------

  /** What holds of every order between calls to the paper broker: one that rests
      has a limit price, a known account and, if it locks shares, a position. */
  ghost predicate RowOk(s: Store, o: Order) {
    && o.quantity > 0.0
    && (o.limitPrice.Some? ==> o.limitPrice.value > 0.0)
    && (o.orderType != Market ==> o.limitPrice.Some?)
    && (o.status != Filled ==> o.filledQuantity == 0.0)
    && (o.status == Filled ==> o.avgFillPrice.Some? && o.avgFillPrice.value > 0.0)
    && o.status in {Created, RiskRejected, RiskApproved, Submitted, Filled, Cancelled, Failed}
    && (o.status == Submitted ==>
          && o.orderType != Market
          && o.accountId in s.accounts
          && (o.side == Sell && !IsBracket(o) ==> HasPosition(s.positions, o.accountId, o.symbol)))
  }

  ghost predicate AtRest(s: Store) {
    forall k :: 0 <= k < |s.orders| ==> RowOk(s, s.orders[k])
  }

  /** At rest, no stand-in price is needed. */
  lemma StandInIrrelevant(cfg: SimConfig, s: Store, a: AccountId, p: real, q: real)
    requires AtRest(s) && a in s.accounts
    ensures FrozenGap(cfg, s, a, p) == FrozenGap(cfg, s, a, q)
  {
    SumAgree(Reserves(cfg, a, p), Reserves(cfg, a, q), s.orders);
  }

  /** `s'` is at rest and has the same gaps as `s`. */
  ghost predicate Keeps(cfg: SimConfig, s: Store, s': Store) {
    AtRest(s') && CashConserved(cfg, s, s', 0.0)
  }

  lemma KeepsOn(cfg: SimConfig, s: Store, t: Store, u: Store)
    requires Keeps(cfg, s, t) && Keeps(cfg, t, u)
    ensures Keeps(cfg, s, u)
  {
  }

  lemma KeepsAtAnyPrice(cfg: SimConfig, s: Store, s': Store, p: real)
    requires AtRest(s) && AtRest(s') && CashConserved(cfg, s, s', p)
    ensures Keeps(cfg, s, s')
  {
    forall a | a in s.accounts
      ensures FrozenGap(cfg, s', a, 0.0) == FrozenGap(cfg, s, a, 0.0)
    {
      StandInIrrelevant(cfg, s, a, p, 0.0);
      StandInIrrelevant(cfg, s', a, p, 0.0);
    }
  }

  /** Rows stay in order when one row changes and no account or position is lost. */
  lemma RestAfterRow(s: Store, s': Store, id: nat)
    requires AtRest(s) && id < |s.orders| == |s'.orders|
    requires s'.orders == s.orders[id := s'.orders[id]] && RowOk(s', s'.orders[id])
    requires s.accounts.Keys == s'.accounts.Keys
    requires PositionsKept(s, s')
    ensures AtRest(s')
  {
    forall k | 0 <= k < |s'.orders| && k != id
      ensures RowOk(s', s'.orders[k])
    {
      assert s'.orders[k] == s.orders[k] && RowOk(s, s.orders[k]);
    }
  }

  ghost predicate PositionsKept(s: Store, s': Store) {
    forall a, y :: HasPosition(s.positions, a, y) ==> HasPosition(s'.positions, a, y)
  }

  lemma SettleKeepsPositions(cfg: SimConfig, s: Store, id: nat, price: real)
    requires id < |s.orders| && s.orders[id].accountId in s.accounts
    ensures PositionsKept(s, Settle(cfg, s, id, price))
  {
    var o := s.orders[id];
    var p := PositionAfter(cfg, Held(s.positions, o.accountId, o.symbol), o, price);
    forall a, y | HasPosition(s.positions, a, y)
      ensures HasPosition(Put(s.positions, p), a, y)
    {
      PutKeepsPositions(s.positions, p, a, y);
    }
  }

  lemma ReserveKeepsPositions(cfg: SimConfig, s: Store, id: nat, quote: Quote)
    requires id < |s.orders| && Reserve(cfg, s, id, quote).Reserved?
    ensures PositionsKept(s, Reserve(cfg, s, id, quote).store)
  {
    var o := s.orders[id];
    var held := Held(s.positions, o.accountId, o.symbol);
    var p := held.(availableQuantity := held.availableQuantity - o.quantity);
    forall a, y | HasPosition(s.positions, a, y)
      ensures HasPosition(Reserve(cfg, s, id, quote).store.positions, a, y)
    {
      PutKeepsPositions(s.positions, p, a, y);
    }
  }

  lemma PricesArePositive(o: Order, quote: Quote)
    requires ValidQuote(quote)
    ensures FillPrice(o, quote).Some? ==> FillPrice(o, quote).value > 0.0
    ensures o.side == Buy && FillPrice(o, quote).Some? ==> FillPrice(o, quote).value == Ask(quote)
    ensures FillPrice(o, quote).None? ==> o.orderType != Market
  {
  }

  lemma FillAtRest(cfg: SimConfig, s: Store, id: nat, price: real)
    requires AtRest(s) && id < |s.orders| && s.orders[id].status == Submitted && price > 0.0
    ensures ApplyFill(cfg, s, id, price).Ok? && Keeps(cfg, s, ApplyFill(cfg, s, id, price).value)
  {
    assert RowOk(s, s.orders[id]);
    FillShape(cfg, s, id, price);
    FillConservesCash(cfg, s, id, price, 0.0);
    SettleKeepsPositions(cfg, s, id, price);
    RestAfterRow(s, ApplyFill(cfg, s, id, price).value, id);
  }

  lemma QuietAtRest(cfg: SimConfig, s: Store, s': Store, id: nat)
    requires AtRest(s) && id < |s.orders| == |s'.orders| && SameBalances(s, s')
    requires s'.orders == s.orders[id := s'.orders[id]] && RowOk(s', s'.orders[id])
    requires s.orders[id].status !in {Submitted, Filled} || s'.orders[id] == s.orders[id]
    requires s'.orders[id].status !in {Submitted, Filled} || s'.orders[id] == s.orders[id]
    ensures Keeps(cfg, s, s')
  {
    QuietRowConservesCash(cfg, s, s', id, 0.0);
    RestAfterRow(s, s', id);
  }

  lemma RefuseAtRest(cfg: SimConfig, s: Store, id: nat, event: AuditEvent)
    requires AtRest(s) && id < |s.orders| && s.orders[id].status == RiskApproved
    ensures Refuse(s, id, event).Ok? && Keeps(cfg, s, Refuse(s, id, event).value.0)
  {
    QuietAtRest(cfg, s, Refuse(s, id, event).value.0, id);
  }

  lemma AcceptedShape(cfg: SimConfig, s: Store, id: nat, quote: Quote)
    requires id < |s.orders| && s.orders[id].status == RiskApproved
    requires Reserve(cfg, s, id, quote).Reserved?
    ensures
      var o, s' := s.orders[id], Accepted(cfg, s, id, quote);
      && s'.orders == s.orders[id := AcceptedRow(o, id)]
      && s'.accounts.Keys == s.accounts.Keys && PositionsKept(s, s')
      && o.accountId in s.accounts
      && (o.side == Sell && !IsBracket(o) ==> HasPosition(s'.positions, o.accountId, o.symbol))
  {
    AcceptShape(Reserve(cfg, s, id, quote).store, id);
    ReserveKeepsPositions(cfg, s, id, quote);
  }

  lemma AcceptedAndRested(cfg: SimConfig, s: Store, id: nat, quote: Quote)
    requires AtRest(s) && id < |s.orders| && s.orders[id].status == RiskApproved && ValidQuote(quote)
    requires Reserve(cfg, s, id, quote).Reserved? && FillPrice(s.orders[id], quote).None?
    ensures Keeps(cfg, s, Accepted(cfg, s, id, quote))
  {
    AcceptedShape(cfg, s, id, quote);
    AcceptConservesCash(cfg, s, id, quote);
    PricesArePositive(s.orders[id], quote);
    assert RowOk(s, s.orders[id]);
    RestAfterRow(s, Accepted(cfg, s, id, quote), id);
    KeepsAtAnyPrice(cfg, s, Accepted(cfg, s, id, quote), Ask(quote));
  }

  lemma AcceptedAndFilledCash(cfg: SimConfig, s: Store, id: nat, quote: Quote)
    requires id < |s.orders| && s.orders[id].status == RiskApproved
    requires Reserve(cfg, s, id, quote).Reserved? && FillPrice(s.orders[id], quote).Some?
    ensures
      var filled := ApplyFill(cfg, Accepted(cfg, s, id, quote), id, FillPrice(s.orders[id], quote).value);
      filled.Ok? && CashConserved(cfg, s, filled.value, Ask(quote))
  {
    AcceptedShape(cfg, s, id, quote);
    AcceptConservesCash(cfg, s, id, quote);
    FillConservesCash(cfg, Accepted(cfg, s, id, quote), id, FillPrice(s.orders[id], quote).value, Ask(quote));
  }

  lemma AcceptedAndFilledRest(cfg: SimConfig, s: Store, id: nat, quote: Quote)
    requires AtRest(s) && id < |s.orders| && s.orders[id].status == RiskApproved && ValidQuote(quote)
    requires Reserve(cfg, s, id, quote).Reserved? && FillPrice(s.orders[id], quote).Some?
    ensures
      var filled := ApplyFill(cfg, Accepted(cfg, s, id, quote), id, FillPrice(s.orders[id], quote).value);
      filled.Ok? && AtRest(filled.value)
  {
    AcceptedShape(cfg, s, id, quote);
    PricesArePositive(s.orders[id], quote);
    assert RowOk(s, s.orders[id]);
    var accepted, price := Accepted(cfg, s, id, quote), FillPrice(s.orders[id], quote).value;
    FillShape(cfg, accepted, id, price);
    SettleKeepsPositions(cfg, accepted, id, price);
    RestAfterRow(s, ApplyFill(cfg, accepted, id, price).value, id);
  }

  lemma AcceptedAndFilled(cfg: SimConfig, s: Store, id: nat, quote: Quote)
    requires AtRest(s) && id < |s.orders| && s.orders[id].status == RiskApproved && ValidQuote(quote)
    requires Reserve(cfg, s, id, quote).Reserved? && FillPrice(s.orders[id], quote).Some?
    ensures
      var filled := ApplyFill(cfg, Accepted(cfg, s, id, quote), id, FillPrice(s.orders[id], quote).value);
      filled.Ok? && Keeps(cfg, s, filled.value)
  {
    AcceptedAndFilledCash(cfg, s, id, quote);
    AcceptedAndFilledRest(cfg, s, id, quote);
    var filled := ApplyFill(cfg, Accepted(cfg, s, id, quote), id, FillPrice(s.orders[id], quote).value);
    KeepsAtAnyPrice(cfg, s, filled.value, Ask(quote));
  }

  /** Acceptance changes nothing the fill price depends on. */
  lemma MatchAccepted(cfg: SimConfig, s: Store, id: nat, quote: Quote)
    requires id < |s.orders| && s.orders[id].status == RiskApproved && Reserve(cfg, s, id, quote).Reserved?
    ensures
      var accepted, price := Accepted(cfg, s, id, quote), FillPrice(s.orders[id], quote);
      Match(cfg, accepted, id, quote) == if price.None? then Ok(accepted) else ApplyFill(cfg, accepted, id, price.value)
  {
    AcceptedShape(cfg, s, id, quote);
    assert FillPrice(AcceptedRow(s.orders[id], id), quote) == FillPrice(s.orders[id], quote);
  }

  /** An accepted order is matched against the quote at once. */
  lemma SubmitReserved(cfg: SimConfig, s: Store, id: nat, quote: Quote)
    requires id < |s.orders| && s.orders[id].status == RiskApproved && quote.symbol == s.orders[id].symbol
    requires Reserve(cfg, s, id, quote).Reserved?
    ensures
      var r, matched := Submit(cfg, s, id, quote), Match(cfg, Accepted(cfg, s, id, quote), id, quote);
      && (matched.Raised? ==> r.Raised?)
      && (matched.Ok? ==> r == Ok((matched.value, BrokerResult(true, Some(LocalSimId(id))))))
  {
    AcceptShape(Reserve(cfg, s, id, quote).store, id);
  }

  /** How a submission ends, in terms of the operations it is made of. */
  lemma SubmitShape(cfg: SimConfig, s: Store, id: nat, quote: Quote)
    requires id < |s.orders|
    ensures
      var o, r := s.orders[id], Submit(cfg, s, id, quote);
      if o.status != RiskApproved then r == Ok((s, BrokerResult(false, None)))
      else if quote.symbol != o.symbol then r == Refuse(s, id, SimSymbolMismatch)
      else if Reserve(cfg, s, id, quote).Refused? then r == Refuse(s, id, SimReservationFailed)
      else
        var accepted, price := Accepted(cfg, s, id, quote), FillPrice(o, quote);
        var matched := if price.None? then Ok(accepted) else ApplyFill(cfg, accepted, id, price.value);
        && (matched.Raised? ==> r.Raised?)
        && (matched.Ok? ==> r == Ok((matched.value, BrokerResult(true, Some(LocalSimId(id))))))
  {
    var o := s.orders[id];
    if o.status == RiskApproved && quote.symbol == o.symbol && Reserve(cfg, s, id, quote).Reserved? {
      SubmitReserved(cfg, s, id, quote);
      MatchAccepted(cfg, s, id, quote);
    }
  }

  lemma SubmitAtRest(cfg: SimConfig, s: Store, id: nat, quote: Quote)
    requires AtRest(s) && id < |s.orders| && ValidQuote(quote)
    ensures Submit(cfg, s, id, quote).Ok? && Keeps(cfg, s, Submit(cfg, s, id, quote).value.0)
  {
    SubmitShape(cfg, s, id, quote);
    var o := s.orders[id];
    if o.status == RiskApproved {
      if quote.symbol != o.symbol {
        RefuseAtRest(cfg, s, id, SimSymbolMismatch);
      } else if Reserve(cfg, s, id, quote).Refused? {
        RefuseAtRest(cfg, s, id, SimReservationFailed);
      } else if FillPrice(o, quote).None? {
        AcceptedAndRested(cfg, s, id, quote);
      } else {
        AcceptedAndFilled(cfg, s, id, quote);
      }
    }
  }

  /** Cancelling never raises at rest: the reservation can always be recomputed. */
  lemma CancelAtRest(cfg: SimConfig, s: Store, id: nat)
    requires AtRest(s) && id < |s.orders|
    ensures Cancel(cfg, s, id).Ok? && Keeps(cfg, s, Cancel(cfg, s, id).value.0)
  {
    var o := s.orders[id];
    if o.status == Submitted {
      assert RowOk(s, o);
      CancelShape(cfg, s, id);
      CancelConservesCash(cfg, s, id, 0.0);
      ReleaseKeepsPositions(cfg, SetOrder(s, id, o.(status := CancelPending)), id);
      RestAfterRow(s, Cancel(cfg, s, id).value.0, id);
    }
  }

  lemma ReleaseKeepsPositions(cfg: SimConfig, s: Store, id: nat)
    requires id < |s.orders| && Release(cfg, s, id).Ok?
    ensures PositionsKept(s, Release(cfg, s, id).value)
    ensures Release(cfg, s, id).value.accounts.Keys == s.accounts.Keys
  {
    var o := s.orders[id];
    var held := Held(s.positions, o.accountId, o.symbol);
    var p := held.(availableQuantity := held.availableQuantity + (o.quantity - o.filledQuantity));
    forall a, y | HasPosition(s.positions, a, y)
      ensures HasPosition(Release(cfg, s, id).value.positions, a, y)
    {
      PutKeepsPositions(s.positions, p, a, y);
    }
  }

  /** `s'` has the accounts and the ledger of `s`, and at most one more order. */
  ghost predicate Adds(s: Store, s': Store, o: Order) {
    && s'.accounts == s.accounts && s'.cashLedger == s.cashLedger
    && (s'.orders == s.orders || s'.orders == s.orders + [o])
  }

  lemma AddedGaps(cfg: SimConfig, s: Store, s': Store, o: Order, a: AccountId)
    requires Adds(s, s', o) && o.status == Created && a in s.accounts
    ensures FrozenGap(cfg, s', a, 0.0) == FrozenGap(cfg, s, a, 0.0)
    ensures CashGap(cfg, s', a) == CashGap(cfg, s, a) && LedgerGap(s', a) == LedgerGap(s, a)
  {
    SumAppend(Reserves(cfg, a, 0.0), s.orders, o);
    SumAppend(CashFlows(cfg, a), s.orders, o);
  }

  lemma AddConservesCash(cfg: SimConfig, s: Store, s': Store, o: Order)
    requires Adds(s, s', o) && o.status == Created
    ensures CashConserved(cfg, s, s', 0.0)
  {
    forall a | a in s.accounts { AddedGaps(cfg, s, s', o, a); }
  }

  lemma CreateAdds(s: Store, intent: Intent, now: int)
    ensures Adds(s, CreateOrder(s, intent, now).0, NewOrder(intent, now))
  {
  }

  lemma CreateAtRest(cfg: SimConfig, s: Store, intent: Intent, now: int)
    requires AtRest(s) && ValidIntent(intent)
    ensures Keeps(cfg, s, CreateOrder(s, intent, now).0)
  {
    CreateAdds(s, intent, now);
    AddConservesCash(cfg, s, CreateOrder(s, intent, now).0, NewOrder(intent, now));
    CreatedRows(s, intent, now);
  }

  lemma CreatedRows(s: Store, intent: Intent, now: int)
    requires AtRest(s) && ValidIntent(intent)
    ensures AtRest(CreateOrder(s, intent, now).0)
  {
    var s' := CreateOrder(s, intent, now).0;
    forall k | 0 <= k < |s'.orders|
      ensures RowOk(s', s'.orders[k])
    {
      assert k < |s.orders| ==> RowOk(s, s.orders[k]);
    }
  }

  lemma ApproveAtRest(cfg: SimConfig, s: Store, id: nat, target: OrderStatus, event: AuditEvent)
    requires AtRest(s) && id < |s.orders| && target in {RiskApproved, RiskRejected}
    requires Transition(s, id, target, event).Ok?
    ensures Keeps(cfg, s, Transition(s, id, target, event).value)
  {
    assert RowOk(s, s.orders[id]);
    QuietAtRest(cfg, s, Transition(s, id, target, event).value, id);
  }

  lemma RiskAtRest(cfg: SimConfig, risk: RiskConfig, s: Store, id: nat, ctx: Context)
    requires AtRest(s) && id < |s.orders| && (ctx.quote.Some? ==> ValidQuote(ctx.quote.value))
    requires RunRiskCheck(risk, s, id, ctx).Ok?
    ensures Keeps(cfg, s, RunRiskCheck(risk, s, id, ctx).value)
  {
    var target := if Check(risk, s, id, ctx) == Approved then RiskApproved else RiskRejected;
    ApproveAtRest(cfg, s, id, target, RiskCheckCompleted);
    var moved := Transition(s, id, target, RiskCheckCompleted).value;
    var s' := RunRiskCheck(risk, s, id, ctx).value;
    assert SameBalances(moved, s') && s'.orders == moved.orders;
    assert forall k :: 0 <= k < |s'.orders| ==> RowOk(moved, moved.orders[k]) ==> RowOk(s', s'.orders[k]);
  }

  lemma {:induction false} MatchRowsAtRest(cfg: SimConfig, s: Store, quote: Quote, rows: seq<nat>)
    requires AtRest(s) && ValidQuote(quote)
    requires forall i :: 0 <= i < |rows| ==> rows[i] < |s.orders| && s.orders[rows[i]].status == Submitted
    requires forall i, j :: 0 <= i < j < |rows| ==> rows[i] != rows[j]
    ensures MatchRows(cfg, s, quote, rows).Ok?
    ensures
      var s' := MatchRows(cfg, s, quote, rows).value;
      Keeps(cfg, s, s') && IsMatched(s.orders, s'.orders, quote, rows)
  {
    if rows != [] {
      var last := |rows| - 1;
      MatchRowsAtRest(cfg, s, quote, rows[..last]);
      var before, id := MatchRows(cfg, s, quote, rows[..last]).value, rows[last];
      MatchAtRest(cfg, before, id, quote);
      KeepsOn(cfg, s, before, MatchRows(cfg, s, quote, rows).value);
      MatchedRow(s.orders, before.orders, quote, rows);
    }
  }

  lemma MatchAtRest(cfg: SimConfig, s: Store, id: nat, quote: Quote)
    requires AtRest(s) && ValidQuote(quote) && id < |s.orders| && s.orders[id].status == Submitted
    ensures
      var r := Match(cfg, s, id, quote);
      r.Ok? && Keeps(cfg, s, r.value) && r.value.orders == s.orders[id := Matched(s.orders[id], quote)]
  {
    assert RowOk(s, s.orders[id]);
    PricesArePositive(s.orders[id], quote);
    FillPriceIff(s.orders[id], quote);
    if FillPrice(s.orders[id], quote).Some? {
      FillShape(cfg, s, id, FillPrice(s.orders[id], quote).value);
      FillAtRest(cfg, s, id, FillPrice(s.orders[id], quote).value);
    }
  }

  /** `now` has exactly these rows matched. */
  ghost predicate IsMatched(orders: seq<Order>, now: seq<Order>, quote: Quote, rows: seq<nat>) {
    && |now| == |orders|
    && forall k :: 0 <= k < |orders| ==> now[k] == if k in rows then Matched(orders[k], quote) else orders[k]
  }

  lemma MatchedRow(orders: seq<Order>, before: seq<Order>, quote: Quote, rows: seq<nat>)
    requires rows != [] && rows[|rows| - 1] < |orders| && IsMatched(orders, before, quote, rows[..|rows| - 1])
    requires rows[|rows| - 1] !in rows[..|rows| - 1]
    ensures
      var id := rows[|rows| - 1];
      before[id] == orders[id] && IsMatched(orders, before[id := Matched(before[id], quote)], quote, rows)
  {
    forall k | 0 <= k < |orders|
      ensures k in rows <==> k in rows[..|rows| - 1] || k == rows[|rows| - 1]
    {
    }
  }

  /** Matching all rows but the last leaves the last one resting as it was. */
  lemma RowStays(cfg: SimConfig, s: Store, quote: Quote, rows: seq<nat>)
    requires AtRest(s) && ValidQuote(quote) && rows != []
    requires forall i :: 0 <= i < |rows| ==> rows[i] < |s.orders| && s.orders[rows[i]].status == Submitted
    requires forall i, j :: 0 <= i < j < |rows| ==> rows[i] != rows[j]
    ensures MatchRows(cfg, s, quote, rows).Ok?
    ensures
      var id := rows[|rows| - 1];
      var before := MatchRows(cfg, s, quote, rows[..|rows| - 1]);
      && before.Ok? && AtRest(before.value) && before.value.orders[id] == s.orders[id]
      && s.orders[id].quantity > 0.0 && s.orders[id].accountId in before.value.accounts
  {
    MatchRowsAtRest(cfg, s, quote, rows);
    OtherRowStays(cfg, s, quote, rows[..|rows| - 1], rows[|rows| - 1]);
  }

  lemma OtherRowStays(cfg: SimConfig, s: Store, quote: Quote, rows: seq<nat>, id: nat)
    requires AtRest(s) && ValidQuote(quote) && id < |s.orders| && s.orders[id].status == Submitted && id !in rows
    requires forall i :: 0 <= i < |rows| ==> rows[i] < |s.orders| && s.orders[rows[i]].status == Submitted
    requires forall i, j :: 0 <= i < j < |rows| ==> rows[i] != rows[j]
    ensures
      var r := MatchRows(cfg, s, quote, rows);
      && r.Ok? && AtRest(r.value) && r.value.orders[id] == s.orders[id]
      && s.orders[id].quantity > 0.0 && s.orders[id].accountId in r.value.accounts
  {
    MatchRowsAtRest(cfg, s, quote, rows);
    RestingRow(MatchRows(cfg, s, quote, rows).value, id);
  }

  lemma RestingRow(s: Store, id: nat)
    requires AtRest(s) && id < |s.orders| && s.orders[id].status == Submitted
    ensures s.orders[id].quantity > 0.0 && s.orders[id].accountId in s.accounts
  {
    assert RowOk(s, s.orders[id]);
  }

  /** The order as it is once it has traded against these prices. */
  function TradedRow(o: Order, bid: real, ask: real): Order {
    o.(status := Filled, filledQuantity := o.quantity, avgFillPrice := Some(if o.side == Buy then ask else bid))
  }

  /** A resting row after a quote: traded if the prices reach it. */
  function Matched(o: Order, quote: Quote): Order {
    if Reaches(o, Bid(quote), Ask(quote)) then TradedRow(o, Bid(quote), Ask(quote)) else o
  }
}
