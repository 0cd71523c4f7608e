/** Shares, cost basis and equity of the paper broker, operation by operation: what
    stores without bracket orders keep, and what any fill does to the cost basis. */
module Shares {
  import opened Domain
  import opened Sums
  import opened Tables
  import opened Pricing
  import opened OrderService
  import opened LocalSim
  import opened Cash

  // ---- totals -------------------------------------------------------------------

  /** Shares that a resting ordinary sell holds back. */
  function Locks(a: AccountId, y: Symbol): Order -> real {
    (o: Order) =>
      if o.status == Submitted && o.side == Sell && !IsBracket(o) && o.accountId == a && o.symbol == y then
        o.quantity
      else 0.0
  }

  /** Shares that a filled order brought in or took out. */
  function Nets(a: AccountId, y: Symbol): Order -> real {
    (o: Order) =>
      if o.status == Filled && o.accountId == a && o.symbol == y then
        if o.side == Buy then o.quantity else -o.quantity
      else 0.0
  }

  function Bases(a: AccountId): Position -> real {
    (p: Position) => if p.accountId == a then Amount(p.quantity, p.avgCost) else 0.0
  }

  lemma SumPut(f: Position -> real, rows: seq<Position>, p: Position)
    requires f(NoPosition(p.accountId, p.symbol)) == 0.0
    ensures Sum(f, Put(rows, p)) == Sum(f, rows) - f(Held(rows, p.accountId, p.symbol)) + f(p)
  {
    var i := PositionIndex(rows, p.accountId, p.symbol);
    if i < |rows| {
      SumUpdate(f, rows, i, p);
    } else {
      SumAppend(f, rows, p);
    }
  }

  // ---- what holds and what is conserved -----------------------------------------------

  /** Unlocked shares are what is held less what the resting sells lock. */
  function LockGap(s: Store, a: AccountId, y: Symbol): real {
    var held := Held(s.positions, a, y);
    held.quantity - held.availableQuantity - Sum(Locks(a, y), s.orders)
  }

  function NetGap(s: Store, a: AccountId, y: Symbol): real {
    Held(s.positions, a, y).quantity - Sum(Nets(a, y), s.orders)
  }

  /** Cash and shares at cost, less the profit already taken. */
  function Wealth(s: Store, a: AccountId): real
    requires a in s.accounts
  {
    Balance(s, a) + Sum(Bases(a), s.positions) - s.accounts[a].realizedPnl
  }

  ghost predicate NoBrackets(orders: seq<Order>) {
    forall k :: 0 <= k < |orders| ==> !IsBracket(orders[k]) && orders[k].quantity > 0.0
  }

  ghost predicate SharesOk(s: Store) {
    && NoBrackets(s.orders)
    && forall a, y :: LockGap(s, a, y) == 0.0 && Held(s.positions, a, y).availableQuantity >= 0.0
  }

  ghost predicate Marked(rows: seq<Position>) {
    forall k :: 0 <= k < |rows| ==>
      rows[k].unrealizedPnl == rows[k].marketValue - Amount(rows[k].quantity, rows[k].avgCost)
  }

  /** The account's totals agree with its positions. */
  ghost predicate Valued(s: Store) {
    && Marked(s.positions)
    && forall a :: a in s.accounts ==>
         && s.accounts[a].equity == Balance(s, a) + Sum(MarketValues(a), s.positions)
         && s.accounts[a].unrealizedPnl == Sum(UnrealizedPnls(a), s.positions)
  }

  ghost predicate SharesConserved(s: Store, s': Store) {
    && s'.accounts.Keys == s.accounts.Keys
    && (forall a, y :: NetGap(s', a, y) == NetGap(s, a, y))
    && (forall a :: a in s.accounts ==> Wealth(s', a) == Wealth(s, a))
  }

  ghost predicate KeepsShares(s: Store, s': Store) {
    SharesOk(s') && Valued(s') && SharesConserved(s, s')
  }

  /** A resting sell is covered by the shares held, so a fill clamps nothing. */
  lemma RestingSellIsCovered(s: Store, id: nat)
    requires SharesOk(s) && id < |s.orders|
    requires s.orders[id].status == Submitted && s.orders[id].side == Sell
    ensures Held(s.positions, s.orders[id].accountId, s.orders[id].symbol).quantity >= s.orders[id].quantity
  {
    var o := s.orders[id];
    SumCovers(Locks(o.accountId, o.symbol), s.orders, id);
    assert LockGap(s, o.accountId, o.symbol) == 0.0;
  }

  // ---- fills ------------------------------------------------------------------------------

  lemma SettleShares(cfg: SimConfig, s: Store, id: nat, price: real, a: AccountId, y: Symbol)
    requires id < |s.orders| && s.orders[id].accountId in s.accounts
    requires
      var o := s.orders[id];
      o.side == Sell ==> Held(s.positions, o.accountId, o.symbol).quantity >= o.quantity
    ensures
      var o, was := s.orders[id], Held(s.positions, a, y);
      var now := Held(Settle(cfg, s, id, price).positions, a, y);
      if a == o.accountId && y == o.symbol then
        if o.side == Buy then
          now.quantity == was.quantity + o.quantity && now.availableQuantity == was.availableQuantity + o.quantity
        else
          now.quantity == was.quantity - o.quantity && now.availableQuantity == was.availableQuantity
      else now == was
  {
    var o := s.orders[id];
    PutHeld(s.positions, PositionAfter(cfg, Held(s.positions, o.accountId, o.symbol), o, price), a, y);
  }

  lemma FillLocks(cfg: SimConfig, s: Store, id: nat, price: real, a: AccountId, y: Symbol)
    requires SharesOk(s) && id < |s.orders|
    requires s.orders[id].status == Submitted && s.orders[id].accountId in s.accounts
    ensures ApplyFill(cfg, s, id, price).Ok?
    ensures
      var s' := ApplyFill(cfg, s, id, price).value;
      && LockGap(s', a, y) == 0.0
      && NetGap(s', a, y) == NetGap(s, a, y)
      && Held(s'.positions, a, y).availableQuantity >= 0.0
  {
    FillShape(cfg, s, id, price);
    var o := s.orders[id];
    if o.side == Sell {
      RestingSellIsCovered(s, id);
    }
    SettleShares(cfg, s, id, price, a, y);
    SumUpdate(Locks(a, y), s.orders, id, FilledRow(o, price));
    SumUpdate(Nets(a, y), s.orders, id, FilledRow(o, price));
    assert LockGap(s, a, y) == 0.0 && Held(s.positions, a, y).availableQuantity >= 0.0;
  }

  /** Cost basis that an oversold position loses without anyone paying for it. */
  function Shortfall(p: Position, o: Order): real {
    if o.side == Sell && p.quantity < o.quantity then Amount(o.quantity - p.quantity, p.avgCost) else 0.0
  }

  /** The basis moves with profit and cash, but for the shortfall of an oversale. */
  lemma PositionBasis(cfg: SimConfig, p: Position, o: Order, price: real, account: Account)
    requires o.side == Buy ==> p.quantity + o.quantity > 0.0
    ensures
      var p', account' := PositionAfter(cfg, p, o, price), CashAfter(cfg, account, p, o, price);
      Amount(p'.quantity, p'.avgCost) - Amount(p.quantity, p.avgCost)
        == (account'.realizedPnl - account.realizedPnl) - CashAmount(cfg, o, price) + Shortfall(p, o)
  {
    if o.side == Buy {
      AveragingKeepsBasis(p.quantity, p.avgCost, o.quantity, CostAt(cfg, o.quantity, price));
    } else {
      assert Amount(o.quantity, price - p.avgCost) == Amount(o.quantity, price) - Amount(o.quantity, p.avgCost);
      assert Amount(p.quantity - o.quantity, p.avgCost)
        == Amount(p.quantity, p.avgCost) - Amount(o.quantity, p.avgCost);
      assert Amount(o.quantity - p.quantity, p.avgCost)
        == Amount(o.quantity, p.avgCost) - Amount(p.quantity, p.avgCost);
    }
  }

  /** Wealth changes by what the basis gains beyond profit less cash. */
  lemma WealthBalances(s: Store, s': Store, p: Position, extra: real, a: AccountId)
    requires a in s.accounts && a in s'.accounts && s'.positions == Put(s.positions, p)
    requires
      var held := Held(s.positions, p.accountId, p.symbol);
      var profit := s'.accounts[a].realizedPnl - s.accounts[a].realizedPnl;
      var cash := Balance(s', a) - Balance(s, a);
      if a == p.accountId then Amount(p.quantity, p.avgCost) - Amount(held.quantity, held.avgCost)
        == profit - cash + extra
      else profit == cash == 0.0 == extra
    ensures Wealth(s', a) == Wealth(s, a) + extra
  {
    SumPut(Bases(a), s.positions, p);
  }

  /** The row a fill writes, with its basis tied to profit and cash. */
  lemma SettleBasis(cfg: SimConfig, s: Store, id: nat, price: real) returns (p: Position)
    requires id < |s.orders| && s.orders[id].accountId in s.accounts
    requires
      var o := s.orders[id];
      o.side == Buy ==> Held(s.positions, o.accountId, o.symbol).quantity + o.quantity > 0.0
    ensures
      var o, s' := s.orders[id], Settle(cfg, s, id, price);
      var a := o.accountId;
      var held := Held(s.positions, a, o.symbol);
      && p.accountId == a && p.symbol == o.symbol && s'.positions == Put(s.positions, p)
      && a in s'.accounts
      && Amount(p.quantity, p.avgCost) - Amount(held.quantity, held.avgCost)
         == (s'.accounts[a].realizedPnl - s.accounts[a].realizedPnl) - CashAmount(cfg, o, price)
            + Shortfall(held, o)
  {
    var o := s.orders[id];
    var held := Held(s.positions, o.accountId, o.symbol);
    p := PositionAfter(cfg, held, o, price);
    PositionBasis(cfg, held, o, price, s.accounts[o.accountId]);
  }

  /** Settling changes the trader's wealth by the shortfall, and nobody else's. */
  lemma SettleWealth(cfg: SimConfig, s: Store, id: nat, price: real, a: AccountId, extra: real)
    requires id < |s.orders| && s.orders[id].accountId in s.accounts && a in s.accounts
    requires
      var o := s.orders[id];
      var held := Held(s.positions, o.accountId, o.symbol);
      && (o.side == Buy ==> held.quantity + o.quantity > 0.0)
      && extra == if a == o.accountId then Shortfall(held, o) else 0.0
    ensures a in Settle(cfg, s, id, price).accounts
    ensures Wealth(Settle(cfg, s, id, price), a) == Wealth(s, a) + extra
  {
    var p := SettleBasis(cfg, s, id, price);
    SettleCash(cfg, s, id, price, a);
    WealthBalances(s, Settle(cfg, s, id, price), p, extra, a);
  }

  lemma FillWealth(cfg: SimConfig, s: Store, id: nat, price: real, a: AccountId)
    requires SharesOk(s) && id < |s.orders| && a in s.accounts
    requires s.orders[id].status == Submitted && s.orders[id].accountId in s.accounts
    ensures ApplyFill(cfg, s, id, price).Ok?
    ensures ApplyFill(cfg, s, id, price).value.accounts.Keys == s.accounts.Keys
    ensures Wealth(ApplyFill(cfg, s, id, price).value, a) == Wealth(s, a)
  {
    FillShape(cfg, s, id, price);
    var o := s.orders[id];
    assert LockGap(s, o.accountId, o.symbol) == 0.0;
    SumNonNegative(Locks(o.accountId, o.symbol), s.orders);
    if o.side == Sell {
      RestingSellIsCovered(s, id);
    }
    SettleCash(cfg, s, id, price, a);
    SettleWealth(cfg, s, id, price, a, 0.0);
  }

  lemma SettleMarks(cfg: SimConfig, s: Store, id: nat, price: real)
    requires id < |s.orders| && s.orders[id].accountId in s.accounts && Marked(s.positions)
    ensures Marked(Settle(cfg, s, id, price).positions)
  {
    var o := s.orders[id];
    MarkedPut(s.positions, PositionAfter(cfg, Held(s.positions, o.accountId, o.symbol), o, price));
  }

  lemma MarkedPut(rows: seq<Position>, p: Position)
    requires Marked(rows) && p.unrealizedPnl == p.marketValue - Amount(p.quantity, p.avgCost)
    ensures Marked(Put(rows, p))
  {
  }

  lemma SettleTotals(cfg: SimConfig, s: Store, id: nat, price: real, a: AccountId)
    requires id < |s.orders| && s.orders[id].accountId in s.accounts && a in s.accounts
    requires s.accounts[a].equity == Balance(s, a) + Sum(MarketValues(a), s.positions)
    requires s.accounts[a].unrealizedPnl == Sum(UnrealizedPnls(a), s.positions)
    ensures
      var s' := Settle(cfg, s, id, price);
      && s'.accounts.Keys == s.accounts.Keys
      && s'.accounts[a].equity == Balance(s', a) + Sum(MarketValues(a), s'.positions)
      && s'.accounts[a].unrealizedPnl == Sum(UnrealizedPnls(a), s'.positions)
  {
    var o := s.orders[id];
    var p := PositionAfter(cfg, Held(s.positions, o.accountId, o.symbol), o, price);
    if a != o.accountId {
      SumPut(MarketValues(a), s.positions, p);
      SumPut(UnrealizedPnls(a), s.positions, p);
    }
  }

  lemma FillValued(cfg: SimConfig, s: Store, id: nat, price: real)
    requires Valued(s) && id < |s.orders|
    requires s.orders[id].status == Submitted && s.orders[id].accountId in s.accounts
    ensures ApplyFill(cfg, s, id, price).Ok? && Valued(ApplyFill(cfg, s, id, price).value)
  {
    FillShape(cfg, s, id, price);
    SettleMarks(cfg, s, id, price);
    SettleTotals(cfg, s, id, price, s.orders[id].accountId);
    forall a | a in s.accounts { SettleTotals(cfg, s, id, price, a); }
  }

  lemma FillKeepsShares(cfg: SimConfig, s: Store, id: nat, price: real)
    requires SharesOk(s) && Valued(s) && id < |s.orders|
    requires s.orders[id].status == Submitted && s.orders[id].accountId in s.accounts
    ensures ApplyFill(cfg, s, id, price).Ok? && KeepsShares(s, ApplyFill(cfg, s, id, price).value)
  {
    FillShape(cfg, s, id, price);
    FillValued(cfg, s, id, price);
    FillWealth(cfg, s, id, price, s.orders[id].accountId);
    forall a, y { FillLocks(cfg, s, id, price, a, y); }
    forall a | a in s.accounts { FillWealth(cfg, s, id, price, a); }
  }

  // ---- reservations and cancellations --------------------------------------------------------

  predicate SameInstrument(o: Order, o': Order) {
    && o'.accountId == o.accountId && o'.symbol == o.symbol && o'.quantity == o.quantity
    && o'.side == o.side && o'.orderType == o.orderType
  }

  /** Order `id` changes without being filled before or after, and its position
      gets back the shares it no longer locks. */
  ghost predicate Unlocks(s: Store, s': Store, id: nat, free: real) {
    && id < |s.orders| == |s'.orders|
    && s'.orders == s.orders[id := s'.orders[id]]
    && SameInstrument(s.orders[id], s'.orders[id])
    && s.orders[id].status != Filled && s'.orders[id].status != Filled
    && var o := s.orders[id];
       var held := Held(s.positions, o.accountId, o.symbol);
       && (|| (s'.positions == s.positions && free == 0.0)
           || s'.positions == Put(s.positions, held.(availableQuantity := held.availableQuantity + free)))
       && held.availableQuantity + free >= 0.0
       && free == Locks(o.accountId, o.symbol)(o) - Locks(o.accountId, o.symbol)(s'.orders[id])
  }

  /** Cash may move between pockets, nothing else. */
  ghost predicate PocketsOnly(s: Store, s': Store) {
    && s'.accounts.Keys == s.accounts.Keys
    && forall a :: a in s.accounts ==>
         && Balance(s', a) == Balance(s, a)
         && s'.accounts[a].equity == s.accounts[a].equity
         && s'.accounts[a].realizedPnl == s.accounts[a].realizedPnl
         && s'.accounts[a].unrealizedPnl == s.accounts[a].unrealizedPnl
  }

  lemma UnlockedShares(s: Store, s': Store, id: nat, free: real, a: AccountId, y: Symbol)
    requires SharesOk(s) && Unlocks(s, s', id, free)
    ensures LockGap(s', a, y) == 0.0 && NetGap(s', a, y) == NetGap(s, a, y)
    ensures Held(s'.positions, a, y).availableQuantity >= 0.0
  {
    var o := s.orders[id];
    var held := Held(s.positions, o.accountId, o.symbol);
    SumUpdate(Locks(a, y), s.orders, id, s'.orders[id]);
    SumUpdate(Nets(a, y), s.orders, id, s'.orders[id]);
    PutHeld(s.positions, held.(availableQuantity := held.availableQuantity + free), a, y);
    assert LockGap(s, a, y) == 0.0 && Held(s.positions, a, y).availableQuantity >= 0.0;
  }

  lemma UnlockedTotals(s: Store, s': Store, id: nat, free: real, a: AccountId)
    requires Unlocks(s, s', id, free)
    ensures Sum(MarketValues(a), s'.positions) == Sum(MarketValues(a), s.positions)
    ensures Sum(UnrealizedPnls(a), s'.positions) == Sum(UnrealizedPnls(a), s.positions)
    ensures Sum(Bases(a), s'.positions) == Sum(Bases(a), s.positions)
  {
    var o := s.orders[id];
    var held := Held(s.positions, o.accountId, o.symbol);
    var p := held.(availableQuantity := held.availableQuantity + free);
    SumPut(MarketValues(a), s.positions, p);
    SumPut(UnrealizedPnls(a), s.positions, p);
    SumPut(Bases(a), s.positions, p);
  }

  lemma UnlockedMarks(s: Store, s': Store, id: nat, free: real)
    requires Unlocks(s, s', id, free) && Marked(s.positions)
    ensures Marked(s'.positions)
  {
  }

  lemma UnlockKeepsShares(s: Store, s': Store, id: nat, free: real)
    requires SharesOk(s) && Valued(s) && Unlocks(s, s', id, free) && PocketsOnly(s, s')
    ensures KeepsShares(s, s')
  {
    UnlockedMarks(s, s', id, free);
    forall a, y { UnlockedShares(s, s', id, free, a, y); }
    forall a | a in s.accounts
      ensures Wealth(s', a) == Wealth(s, a)
      ensures s'.accounts[a].equity == Balance(s', a) + Sum(MarketValues(a), s'.positions)
      ensures s'.accounts[a].unrealizedPnl == Sum(UnrealizedPnls(a), s'.positions)
    {
      UnlockedTotals(s, s', id, free, a);
    }
  }

  lemma AcceptKeepsShares(cfg: SimConfig, s: Store, id: nat, quote: Quote)
    requires SharesOk(s) && Valued(s) && id < |s.orders| && s.orders[id].status == RiskApproved
    requires Reserve(cfg, s, id, quote).Reserved?
    ensures KeepsShares(s, Accepted(cfg, s, id, quote))
  {
    AcceptShape(Reserve(cfg, s, id, quote).store, id);
    var o := s.orders[id];
    UnlockKeepsShares(s, Accepted(cfg, s, id, quote), id, if o.side == Buy then 0.0 else -o.quantity);
  }

  lemma CancelKeepsShares(cfg: SimConfig, s: Store, id: nat)
    requires SharesOk(s) && Valued(s) && id < |s.orders| && s.orders[id].status == Submitted
    requires s.orders[id].filledQuantity == 0.0 && Cancel(cfg, s, id).Ok?
    ensures KeepsShares(s, Cancel(cfg, s, id).value.0)
  {
    CancelShape(cfg, s, id);
    var o := s.orders[id];
    assert Held(s.positions, o.accountId, o.symbol).availableQuantity >= 0.0 by {
      assert LockGap(s, o.accountId, o.symbol) == 0.0;
    }
    UnlockKeepsShares(s, Cancel(cfg, s, id).value.0, id, if o.side == Buy then 0.0 else o.quantity);
  }

  /** A status change outside resting and filled moves no shares. */
  lemma QuietKeepsShares(s: Store, s': Store, id: nat)
    requires SharesOk(s) && Valued(s) && id < |s.orders| == |s'.orders| && SameBalances(s, s')
    requires s'.orders == s.orders[id := s'.orders[id]] && SameInstrument(s.orders[id], s'.orders[id])
    requires s.orders[id].status !in {Submitted, Filled} && s'.orders[id].status !in {Submitted, Filled}
    ensures KeepsShares(s, s')
  {
    var o := s.orders[id];
    assert Held(s.positions, o.accountId, o.symbol).availableQuantity >= 0.0 by {
      assert LockGap(s, o.accountId, o.symbol) == 0.0;
    }
    UnlockKeepsShares(s, s', id, 0.0);
  }

  lemma CreateKeepsShares(s: Store, intent: Intent, now: int)
    requires SharesOk(s) && Valued(s) && ValidIntent(intent) && !IsBracket(NewOrder(intent, now))
    ensures KeepsShares(s, CreateOrder(s, intent, now).0)
  {
    var s' := CreateOrder(s, intent, now).0;
    CreatedPlain(s, intent, now);
    forall a, y
      ensures LockGap(s', a, y) == 0.0 && NetGap(s', a, y) == NetGap(s, a, y)
      ensures Held(s'.positions, a, y).availableQuantity >= 0.0
    {
      assert LockGap(s, a, y) == 0.0;
      CreatedGaps(s, intent, now, a, y);
    }
  }

  lemma CreatedPlain(s: Store, intent: Intent, now: int)
    requires NoBrackets(s.orders) && ValidIntent(intent) && !IsBracket(NewOrder(intent, now))
    ensures NoBrackets(CreateOrder(s, intent, now).0.orders) && SameBalances(s, CreateOrder(s, intent, now).0)
  {
  }

  lemma CreatedGaps(s: Store, intent: Intent, now: int, a: AccountId, y: Symbol)
    ensures
      var s' := CreateOrder(s, intent, now).0;
      LockGap(s', a, y) == LockGap(s, a, y) && NetGap(s', a, y) == NetGap(s, a, y)
  {
    SumAppend(Locks(a, y), s.orders, NewOrder(intent, now));
    SumAppend(Nets(a, y), s.orders, NewOrder(intent, now));
  }

  lemma SubmitKeepsShares(cfg: SimConfig, s: Store, id: nat, quote: Quote)
    requires AtRest(s) && SharesOk(s) && Valued(s) && id < |s.orders| && ValidQuote(quote)
    ensures Submit(cfg, s, id, quote).Ok? && KeepsShares(s, Submit(cfg, s, id, quote).value.0)
  {
    SubmitShape(cfg, s, id, quote);
    var o := s.orders[id];
    if o.status == RiskApproved {
      if quote.symbol != o.symbol {
        QuietKeepsShares(s, Refuse(s, id, SimSymbolMismatch).value.0, id);
      } else if Reserve(cfg, s, id, quote).Refused? {
        QuietKeepsShares(s, Refuse(s, id, SimReservationFailed).value.0, id);
      } else {
        AcceptKeepsShares(cfg, s, id, quote);
        AcceptedShape(cfg, s, id, quote);
        if FillPrice(o, quote).Some? {
          FillKeepsShares(cfg, Accepted(cfg, s, id, quote), id, FillPrice(o, quote).value);
        }
      }
    }
  }

  lemma {:induction false} MatchRowsKeepsShares(cfg: SimConfig, s: Store, quote: Quote, rows: seq<nat>)
    requires AtRest(s) && SharesOk(s) && Valued(s) && ValidQuote(quote)
    requires forall i :: 0 <= i < |rows| ==> rows[i] < |s.orders| && s.orders[rows[i]].status == Submitted
    requires forall i, j :: 0 <= i < j < |rows| ==> rows[i] != rows[j]
    ensures MatchRows(cfg, s, quote, rows).Ok? && KeepsShares(s, MatchRows(cfg, s, quote, rows).value)
  {
    MatchRowsAtRest(cfg, s, quote, rows);
    if rows != [] {
      var last := |rows| - 1;
      MatchRowsAtRest(cfg, s, quote, rows[..last]);
      MatchRowsKeepsShares(cfg, s, quote, rows[..last]);
      var before := MatchRows(cfg, s, quote, rows[..last]).value;
      var id := rows[last];
      assert before.orders[id] == s.orders[id] && RowOk(before, before.orders[id]);
      if FillPrice(s.orders[id], quote).Some? {
        FillKeepsShares(cfg, before, id, FillPrice(s.orders[id], quote).value);
      }
    }
  }
}
