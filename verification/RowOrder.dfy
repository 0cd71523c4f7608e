/** What a quote leaves, and what of it depends on the order in which the query
    returns the resting orders. */
module RowOrder {
  import opened Domain
  import opened Sums
  import opened Tables
  import opened Pricing
  import opened LocalSim
  import opened Cash
  import opened Shares
  import opened ShareRuns

  // ---- orders and cash ---------------------------------------------------------------------

  /** Orders and cash never depend on the row order, brackets or not. */
  lemma CashAgrees(cfg: SimConfig, s: Store, quote: Quote, rows: seq<nat>, rows': seq<nat>)
    requires AtRest(s) && ValidQuote(quote)
    requires RestingRows(s.orders, quote.symbol, rows) && RestingRows(s.orders, quote.symbol, rows')
    ensures MatchRows(cfg, s, quote, rows).Ok? && MatchRows(cfg, s, quote, rows').Ok?
    ensures
      var one, two := MatchRows(cfg, s, quote, rows).value, MatchRows(cfg, s, quote, rows').value;
      && one.orders == two.orders
      && one.accounts.Keys == two.accounts.Keys
      && (forall a :: a in one.accounts ==>
            && one.accounts[a].cashAvailable == two.accounts[a].cashAvailable
            && one.accounts[a].cashFrozen == two.accounts[a].cashFrozen)
  {
    MatchRowsAtRest(cfg, s, quote, rows);
    MatchRowsAtRest(cfg, s, quote, rows');
    var one, two := MatchRows(cfg, s, quote, rows).value, MatchRows(cfg, s, quote, rows').value;
    forall k | 0 <= k < |s.orders|
      ensures one.orders[k] == two.orders[k]
    {
      assert k in rows <==> k in rows';
    }
    assert one.orders == two.orders;
    forall a | a in s.accounts
      ensures one.accounts[a].cashFrozen == two.accounts[a].cashFrozen
      ensures one.accounts[a].cashAvailable == two.accounts[a].cashAvailable
    {
      assert FrozenGap(cfg, one, a, 0.0) == FrozenGap(cfg, two, a, 0.0);
      assert CashGap(cfg, one, a) == CashGap(cfg, two, a);
    }
  }

  // ---- shares, row by row --------------------------------------------------------------------

  predicate Trades(o: Order, quote: Quote, a: AccountId, side: Side) {
    && o.status == Submitted && o.symbol == quote.symbol && FillPrice(o, quote).Some?
    && o.accountId == a && o.side == side
  }

  /** What an order of the account trades at this quote, on one side. */
  function Traded(quote: Quote, a: AccountId, side: Side): Order -> real {
    (o: Order) => if Trades(o, quote, a, side) then o.quantity else 0.0
  }

  /** Rows of distinct resting orders of the symbol, not necessarily all. */
  ghost predicate SomeRows(orders: seq<Order>, y: Symbol, rows: seq<nat>) {
    && (forall i, j :: 0 <= i < j < |rows| ==> rows[i] != rows[j])
    && (forall i :: 0 <= i < |rows| ==>
          rows[i] < |orders| && orders[rows[i]].symbol == y && orders[rows[i]].status == Submitted)
  }

  predicate InRange(orders: seq<Order>, rows: seq<nat>) {
    forall i :: 0 <= i < |rows| ==> rows[i] < |orders|
  }

  function RowSum(f: Order -> real, orders: seq<Order>, rows: seq<nat>): real
    requires InRange(orders, rows)
  {
    if rows == [] then 0.0
    else RowSum(f, orders, rows[..|rows| - 1]) + f(orders[rows[|rows| - 1]])
  }

  /** Shares of the account after these rows: buys add, sales take off down to zero. */
  function After(orders: seq<Order>, quote: Quote, a: AccountId, held: real, rows: seq<nat>): real
    requires InRange(orders, rows)
  {
    if rows == [] then held
    else
      var before, o := After(orders, quote, a, held, rows[..|rows| - 1]), orders[rows[|rows| - 1]];
      if Trades(o, quote, a, Buy) then before + o.quantity
      else if Trades(o, quote, a, Sell) then Sold(before, o.quantity)
      else before
  }

  lemma FillHeld(cfg: SimConfig, s: Store, id: nat, price: real, a: AccountId, y: Symbol)
    requires id < |s.orders| && s.orders[id].status == Submitted && s.orders[id].accountId in s.accounts
    ensures ApplyFill(cfg, s, id, price).Ok?
    ensures
      var o, was := s.orders[id], Held(s.positions, a, y);
      var now := Held(ApplyFill(cfg, s, id, price).value.positions, a, y);
      if a == o.accountId && y == o.symbol then
        && now.quantity == (if o.side == Buy then was.quantity + o.quantity else Sold(was.quantity, o.quantity))
        && now.availableQuantity == was.availableQuantity + (if o.side == Buy then o.quantity else 0.0)
      else now == was
  {
    FillShape(cfg, s, id, price);
    var o := s.orders[id];
    PutHeld(s.positions, PositionAfter(cfg, Held(s.positions, o.accountId, o.symbol), o, price), a, y);
  }

  lemma MatchHeld(cfg: SimConfig, s: Store, id: nat, quote: Quote, a: AccountId, y: Symbol)
    requires id < |s.orders| && s.orders[id].status == Submitted && s.orders[id].accountId in s.accounts
    requires s.orders[id].symbol == quote.symbol && Match(cfg, s, id, quote).Ok?
    ensures
      var o, was := s.orders[id], Held(s.positions, a, y);
      var now := Held(Match(cfg, s, id, quote).value.positions, a, y);
      if y == quote.symbol then
        && now.quantity == (if Trades(o, quote, a, Buy) then was.quantity + o.quantity
                            else if Trades(o, quote, a, Sell) then Sold(was.quantity, o.quantity)
                            else was.quantity)
        && now.availableQuantity == was.availableQuantity + Traded(quote, a, Buy)(o)
      else now == was
  {
    var price := FillPrice(s.orders[id], quote);
    if price.Some? {
      FillHeld(cfg, s, id, price.value, a, y);
    }
  }

  /** Matching some rows leaves the next one as it was. */
  lemma NextRow(cfg: SimConfig, s: Store, quote: Quote, rows: seq<nat>)
    requires AtRest(s) && ValidQuote(quote) && SomeRows(s.orders, quote.symbol, rows) && rows != []
    ensures MatchRows(cfg, s, quote, rows).Ok?
    ensures
      var last := |rows| - 1;
      var before := MatchRows(cfg, s, quote, rows[..last]);
      && before.Ok? && before.value.orders[rows[last]] == s.orders[rows[last]]
      && s.orders[rows[last]].accountId in before.value.accounts
  {
    RowStays(cfg, s, quote, rows);
  }

  lemma {:induction false} MatchedQuantity(cfg: SimConfig, s: Store, quote: Quote, rows: seq<nat>, a: AccountId)
    requires AtRest(s) && ValidQuote(quote) && SomeRows(s.orders, quote.symbol, rows)
    ensures MatchRows(cfg, s, quote, rows).Ok?
    ensures Held(MatchRows(cfg, s, quote, rows).value.positions, a, quote.symbol).quantity
         == After(s.orders, quote, a, Held(s.positions, a, quote.symbol).quantity, rows)
  {
    if rows != [] {
      var last := |rows| - 1;
      MatchedQuantity(cfg, s, quote, rows[..last], a);
      NextRow(cfg, s, quote, rows);
      MatchHeld(cfg, MatchRows(cfg, s, quote, rows[..last]).value, rows[last], quote, a, quote.symbol);
    }
  }

  lemma {:induction false} MatchedAvailable(cfg: SimConfig, s: Store, quote: Quote, rows: seq<nat>, a: AccountId)
    requires AtRest(s) && ValidQuote(quote) && SomeRows(s.orders, quote.symbol, rows)
    ensures MatchRows(cfg, s, quote, rows).Ok?
    ensures Held(MatchRows(cfg, s, quote, rows).value.positions, a, quote.symbol).availableQuantity
         == Held(s.positions, a, quote.symbol).availableQuantity + RowSum(Traded(quote, a, Buy), s.orders, rows)
  {
    if rows != [] {
      var last := |rows| - 1;
      MatchedAvailable(cfg, s, quote, rows[..last], a);
      NextRow(cfg, s, quote, rows);
      MatchHeld(cfg, MatchRows(cfg, s, quote, rows[..last]).value, rows[last], quote, a, quote.symbol);
    }
  }

  lemma {:induction false} MatchedElsewhere(
    cfg: SimConfig, s: Store, quote: Quote, rows: seq<nat>, a: AccountId, y: Symbol)
    requires AtRest(s) && ValidQuote(quote) && SomeRows(s.orders, quote.symbol, rows) && y != quote.symbol
    ensures MatchRows(cfg, s, quote, rows).Ok?
    ensures Held(MatchRows(cfg, s, quote, rows).value.positions, a, y) == Held(s.positions, a, y)
  {
    if rows != [] {
      var last := |rows| - 1;
      MatchedElsewhere(cfg, s, quote, rows[..last], a, y);
      NextRow(cfg, s, quote, rows);
      MatchHeld(cfg, MatchRows(cfg, s, quote, rows[..last]).value, rows[last], quote, a, y);
    }
  }

  // ---- what all rows together trade ------------------------------------------------------------

  /** `f` is zero on orders that do not trade at the quote. */
  ghost predicate OnTradesOnly(f: Order -> real, quote: Quote) {
    forall o: Order ::
      !(o.status == Submitted && o.symbol == quote.symbol && FillPrice(o, quote).Some?) ==> f(o) == 0.0
  }

  lemma RowSumNext(cfg: SimConfig, s: Store, id: nat, quote: Quote, f: Order -> real)
    requires id < |s.orders| && s.orders[id].status == Submitted && s.orders[id].accountId in s.accounts
    requires OnTradesOnly(f, quote)
    ensures Match(cfg, s, id, quote).Ok?
    ensures Sum(f, Match(cfg, s, id, quote).value.orders) == Sum(f, s.orders) - f(s.orders[id])
  {
    var price := FillPrice(s.orders[id], quote);
    if price.Some? {
      FillShape(cfg, s, id, price.value);
      SumUpdate(f, s.orders, id, FilledRow(s.orders[id], price.value));
    }
  }

  lemma {:induction false} RowSumIs(cfg: SimConfig, s: Store, quote: Quote, rows: seq<nat>, f: Order -> real)
    requires AtRest(s) && ValidQuote(quote) && SomeRows(s.orders, quote.symbol, rows) && OnTradesOnly(f, quote)
    ensures MatchRows(cfg, s, quote, rows).Ok?
    ensures RowSum(f, s.orders, rows)
         == Sum(f, s.orders) - Sum(f, MatchRows(cfg, s, quote, rows).value.orders)
  {
    if rows != [] {
      var last := |rows| - 1;
      RowSumIs(cfg, s, quote, rows[..last], f);
      NextRow(cfg, s, quote, rows);
      RowSumNext(cfg, MatchRows(cfg, s, quote, rows[..last]).value, rows[last], quote, f);
    }
  }

  /** The rows of a quote trade what the table says, whatever their order. */
  lemma AllRowsSum(cfg: SimConfig, s: Store, quote: Quote, rows: seq<nat>, f: Order -> real)
    requires AtRest(s) && ValidQuote(quote) && RestingRows(s.orders, quote.symbol, rows) && OnTradesOnly(f, quote)
    ensures RowSum(f, s.orders, rows) == Sum(f, s.orders)
  {
    RowSumIs(cfg, s, quote, rows, f);
    MatchRowsAtRest(cfg, s, quote, rows);
    var now := MatchRows(cfg, s, quote, rows).value.orders;
    forall k | 0 <= k < |now|
      ensures f(now[k]) == 0.0
    {
      MatchedIsDone(s.orders[k], quote, f);
    }
    SumZero(f, now);
  }

  /** A matched row trades nothing more at the quote. */
  lemma MatchedIsDone(o: Order, quote: Quote, f: Order -> real)
    requires OnTradesOnly(f, quote)
    ensures f(Matched(o, quote)) == 0.0
    ensures o.status != Submitted || o.symbol != quote.symbol ==> f(o) == 0.0
  {
    FillPriceIff(o, quote);
  }

  lemma AllRowsTrade(cfg: SimConfig, s: Store, quote: Quote, rows: seq<nat>, a: AccountId, side: Side)
    requires AtRest(s) && ValidQuote(quote) && RestingRows(s.orders, quote.symbol, rows)
    ensures RowSum(Traded(quote, a, side), s.orders, rows) == Sum(Traded(quote, a, side), s.orders)
  {
    AllRowsSum(cfg, s, quote, rows, Traded(quote, a, side));
  }

  // ---- the two extreme orders --------------------------------------------------------------------

  ghost predicate Positive(orders: seq<Order>) {
    forall k :: 0 <= k < |orders| ==> orders[k].quantity > 0.0
  }

  lemma {:induction false} RowSumNonNegative(orders: seq<Order>, quote: Quote, a: AccountId, side: Side, rows: seq<nat>)
    requires Positive(orders) && InRange(orders, rows)
    ensures RowSum(Traded(quote, a, side), orders, rows) >= 0.0
  {
    if rows != [] {
      RowSumNonNegative(orders, quote, a, side, rows[..|rows| - 1]);
    }
  }

  lemma {:induction false} AfterCovered(orders: seq<Order>, quote: Quote, a: AccountId, held: real, rows: seq<nat>)
    requires Positive(orders) && InRange(orders, rows)
    requires RowSum(Traded(quote, a, Sell), orders, rows) <= held
    ensures After(orders, quote, a, held, rows)
         == held - RowSum(Traded(quote, a, Sell), orders, rows) + RowSum(Traded(quote, a, Buy), orders, rows)
  {
    if rows != [] {
      var before := rows[..|rows| - 1];
      AfterCovered(orders, quote, a, held, before);
      RowSumNonNegative(orders, quote, a, Buy, before);
    }
  }

  lemma {:induction false} AfterSales(orders: seq<Order>, quote: Quote, a: AccountId, held: real, rows: seq<nat>)
    requires Positive(orders) && InRange(orders, rows) && held >= 0.0
    requires RowSum(Traded(quote, a, Buy), orders, rows) == 0.0
    ensures After(orders, quote, a, held, rows) == Sold(held, RowSum(Traded(quote, a, Sell), orders, rows))
  {
    if rows != [] {
      var before := rows[..|rows| - 1];
      RowSumNonNegative(orders, quote, a, Buy, before);
      RowSumNonNegative(orders, quote, a, Sell, before);
      AfterSales(orders, quote, a, held, before);
    }
  }

  lemma {:induction false} AfterConcat(orders: seq<Order>, quote: Quote, a: AccountId, held: real, xs: seq<nat>,
      ys: seq<nat>)
    requires InRange(orders, xs) && InRange(orders, ys)
    ensures InRange(orders, xs + ys)
    ensures After(orders, quote, a, held, xs + ys) == After(orders, quote, a, After(orders, quote, a, held, xs), ys)
  {
    if ys == [] {
      assert xs + ys == xs;
    } else {
      AfterConcat(orders, quote, a, held, xs, ys[..|ys| - 1]);
      assert (xs + ys)[..|xs + ys| - 1] == xs + ys[..|ys| - 1];
    }
  }

  /** The rows that sell for the account, or all the others. */
  function Pick(orders: seq<Order>, quote: Quote, a: AccountId, sales: bool, rows: seq<nat>): (r: seq<nat>)
    requires InRange(orders, rows)
    ensures InRange(orders, r)
  {
    if rows == [] then []
    else
      var earlier, last := Pick(orders, quote, a, sales, rows[..|rows| - 1]), rows[|rows| - 1];
      if Trades(orders[last], quote, a, Sell) == sales then earlier + [last] else earlier
  }

  lemma {:induction false} PickMembers(orders: seq<Order>, quote: Quote, a: AccountId, sales: bool, rows: seq<nat>,
      k: nat)
    requires InRange(orders, rows)
    ensures k in Pick(orders, quote, a, sales, rows)
            <==> k in rows && k < |orders| && Trades(orders[k], quote, a, Sell) == sales
  {
    if rows != [] {
      PickMembers(orders, quote, a, sales, rows[..|rows| - 1], k);
      assert k in rows <==> k in rows[..|rows| - 1] || k == rows[|rows| - 1];
    }
  }

  ghost predicate Distinct(rows: seq<nat>) {
    forall i, j :: 0 <= i < j < |rows| ==> rows[i] != rows[j]
  }

  lemma {:induction false} PickDistinct(orders: seq<Order>, quote: Quote, a: AccountId, sales: bool, rows: seq<nat>)
    requires InRange(orders, rows) && Distinct(rows)
    ensures Distinct(Pick(orders, quote, a, sales, rows))
  {
    if rows != [] {
      var before, last := rows[..|rows| - 1], rows[|rows| - 1];
      PickDistinct(orders, quote, a, sales, before);
      PickMembers(orders, quote, a, sales, before, last);
    }
  }

  lemma {:induction false} PickSums(orders: seq<Order>, quote: Quote, a: AccountId, sales: bool, rows: seq<nat>)
    requires InRange(orders, rows)
    ensures
      var picked := Pick(orders, quote, a, sales, rows);
      && RowSum(Traded(quote, a, Sell), orders, picked)
         == (if sales then RowSum(Traded(quote, a, Sell), orders, rows) else 0.0)
      && RowSum(Traded(quote, a, Buy), orders, picked)
         == (if sales then 0.0 else RowSum(Traded(quote, a, Buy), orders, rows))
  {
    if rows != [] {
      var before, last := rows[..|rows| - 1], rows[|rows| - 1];
      PickSums(orders, quote, a, sales, before);
      var picked := Pick(orders, quote, a, sales, before);
      assert (picked + [last])[..|picked|] == picked;
    }
  }

  function Reordered(orders: seq<Order>, quote: Quote, a: AccountId, salesFirst: bool, rows: seq<nat>): seq<nat>
    requires InRange(orders, rows)
  {
    Pick(orders, quote, a, salesFirst, rows) + Pick(orders, quote, a, !salesFirst, rows)
  }

  lemma ReorderedRows(orders: seq<Order>, quote: Quote, a: AccountId, salesFirst: bool, rows: seq<nat>)
    requires RestingRows(orders, quote.symbol, rows)
    ensures RestingRows(orders, quote.symbol, Reordered(orders, quote, a, salesFirst, rows))
  {
    var xs, ys := Pick(orders, quote, a, salesFirst, rows), Pick(orders, quote, a, !salesFirst, rows);
    PickDistinct(orders, quote, a, salesFirst, rows);
    PickDistinct(orders, quote, a, !salesFirst, rows);
    forall k: nat
      ensures k in xs <==> k in rows && Trades(orders[k], quote, a, Sell) == salesFirst
      ensures k in ys <==> k in rows && Trades(orders[k], quote, a, Sell) == !salesFirst
    {
      PickMembers(orders, quote, a, salesFirst, rows, k);
      PickMembers(orders, quote, a, !salesFirst, rows, k);
    }
    JoinedDistinct(xs, ys);
    assert forall k :: k in xs + ys <==> k in rows;
    forall i | 0 <= i < |xs + ys|
      ensures (xs + ys)[i] in rows
    {
      assert (xs + ys)[i] in xs + ys;
    }
  }

  lemma JoinedDistinct(xs: seq<nat>, ys: seq<nat>)
    requires Distinct(xs) && Distinct(ys) && forall k :: k in xs ==> k !in ys
    ensures Distinct(xs + ys)
  {
    forall i, j | 0 <= i < j < |xs + ys|
      ensures (xs + ys)[i] != (xs + ys)[j]
    {
      if i < |xs| <= j {
        assert xs[i] in xs && ys[j - |xs|] in ys;
      }
    }
  }

  lemma PickedSales(orders: seq<Order>, quote: Quote, a: AccountId, held: real, rows: seq<nat>)
    requires Positive(orders) && InRange(orders, rows) && held >= 0.0
    ensures After(orders, quote, a, held, Pick(orders, quote, a, true, rows))
         == Sold(held, RowSum(Traded(quote, a, Sell), orders, rows))
  {
    PickSums(orders, quote, a, true, rows);
    AfterSales(orders, quote, a, held, Pick(orders, quote, a, true, rows));
  }

  lemma PickedOthers(orders: seq<Order>, quote: Quote, a: AccountId, held: real, rows: seq<nat>)
    requires Positive(orders) && InRange(orders, rows) && held >= 0.0
    ensures After(orders, quote, a, held, Pick(orders, quote, a, false, rows))
         == held + RowSum(Traded(quote, a, Buy), orders, rows)
  {
    PickSums(orders, quote, a, false, rows);
    AfterCovered(orders, quote, a, held, Pick(orders, quote, a, false, rows));
  }

  /** Sales first: what they leave, and all purchases. */
  lemma SalesFirst(orders: seq<Order>, quote: Quote, a: AccountId, held: real, rows: seq<nat>)
    requires Positive(orders) && InRange(orders, rows) && held >= 0.0
    ensures InRange(orders, Reordered(orders, quote, a, true, rows))
    ensures After(orders, quote, a, held, Reordered(orders, quote, a, true, rows))
         == Sold(held, RowSum(Traded(quote, a, Sell), orders, rows)) + RowSum(Traded(quote, a, Buy), orders, rows)
  {
    AfterConcat(orders, quote, a, held, Pick(orders, quote, a, true, rows), Pick(orders, quote, a, false, rows));
    PickedSales(orders, quote, a, held, rows);
    PickedOthers(orders, quote, a, Sold(held, RowSum(Traded(quote, a, Sell), orders, rows)), rows);
  }

  /** Sales last: what they leave of all there is by then. */
  lemma SalesLast(orders: seq<Order>, quote: Quote, a: AccountId, held: real, rows: seq<nat>)
    requires Positive(orders) && InRange(orders, rows) && held >= 0.0
    ensures InRange(orders, Reordered(orders, quote, a, false, rows))
    ensures After(orders, quote, a, held, Reordered(orders, quote, a, false, rows))
         == Sold(held + RowSum(Traded(quote, a, Buy), orders, rows), RowSum(Traded(quote, a, Sell), orders, rows))
  {
    AfterConcat(orders, quote, a, held, Pick(orders, quote, a, false, rows), Pick(orders, quote, a, true, rows));
    PickedOthers(orders, quote, a, held, rows);
    RowSumNonNegative(orders, quote, a, Buy, rows);
    PickedSales(orders, quote, a, held + RowSum(Traded(quote, a, Buy), orders, rows), rows);
  }

  // ---- when shares agree ------------------------------------------------------------------------

  function SharesAfter(cfg: SimConfig, s: Store, quote: Quote, rows: seq<nat>, a: AccountId): Option<real>
    requires InRange(s.orders, rows)
  {
    match MatchRows(cfg, s, quote, rows)
    case Ok(s') => Some(Held(s'.positions, a, quote.symbol).quantity)
    case Raised(_) => None
  }

  /** Every order of the rows leaves the account the same shares. */
  ghost predicate SharesAgree(cfg: SimConfig, s: Store, quote: Quote, rows: seq<nat>, a: AccountId)
    requires InRange(s.orders, rows)
  {
    forall rows' :: RestingRows(s.orders, quote.symbol, rows') ==>
      SharesAfter(cfg, s, quote, rows', a) == SharesAfter(cfg, s, quote, rows, a)
  }

  lemma SharesAfterIs(cfg: SimConfig, s: Store, quote: Quote, rows: seq<nat>, a: AccountId)
    requires AtRest(s) && ValidQuote(quote) && RestingRows(s.orders, quote.symbol, rows)
    ensures
      var held := Held(s.positions, a, quote.symbol).quantity;
      SharesAfter(cfg, s, quote, rows, a) == Some(After(s.orders, quote, a, held, rows))
  {
    MatchedQuantity(cfg, s, quote, rows, a);
  }

  lemma AgreeIfCovered(cfg: SimConfig, s: Store, quote: Quote, rows: seq<nat>, a: AccountId)
    requires AtRest(s) && ValidQuote(quote) && RestingRows(s.orders, quote.symbol, rows)
    requires Held(s.positions, a, quote.symbol).quantity >= 0.0
    requires Sum(Traded(quote, a, Buy), s.orders) == 0.0
          || Sum(Traded(quote, a, Sell), s.orders) <= Held(s.positions, a, quote.symbol).quantity
    ensures
      var held := Held(s.positions, a, quote.symbol).quantity;
      SharesAfter(cfg, s, quote, rows, a)
        == Some(Sold(held, Sum(Traded(quote, a, Sell), s.orders)) + Sum(Traded(quote, a, Buy), s.orders))
  {
    var held := Held(s.positions, a, quote.symbol).quantity;
    RestingQuantities(s);
    SharesAfterIs(cfg, s, quote, rows, a);
    AllRowsTrade(cfg, s, quote, rows, a, Buy);
    AllRowsTrade(cfg, s, quote, rows, a, Sell);
    if Sum(Traded(quote, a, Sell), s.orders) <= held {
      AfterCovered(s.orders, quote, a, held, rows);
    } else {
      AfterSales(s.orders, quote, a, held, rows);
    }
  }

  lemma RestingQuantities(s: Store)
    requires AtRest(s)
    ensures Positive(s.orders)
  {
    forall k | 0 <= k < |s.orders| ensures s.orders[k].quantity > 0.0 { assert RowOk(s, s.orders[k]); }
  }

  /** Shares do not depend on the row order if and only if nothing is bought at the
      quote or the shares held cover everything that is sold at it. */
  lemma SharesAgreeIff(cfg: SimConfig, s: Store, quote: Quote, rows: seq<nat>, a: AccountId)
    requires AtRest(s) && ValidQuote(quote) && RestingRows(s.orders, quote.symbol, rows)
    requires Held(s.positions, a, quote.symbol).quantity >= 0.0
    ensures SharesAgree(cfg, s, quote, rows, a)
            <==> || Sum(Traded(quote, a, Buy), s.orders) == 0.0
                 || Sum(Traded(quote, a, Sell), s.orders) <= Held(s.positions, a, quote.symbol).quantity
  {
    var held := Held(s.positions, a, quote.symbol).quantity;
    var bought, sold := Sum(Traded(quote, a, Buy), s.orders), Sum(Traded(quote, a, Sell), s.orders);
    if bought == 0.0 || sold <= held {
      AgreeIfCovered(cfg, s, quote, rows, a);
      forall rows' | RestingRows(s.orders, quote.symbol, rows')
        ensures SharesAfter(cfg, s, quote, rows', a) == SharesAfter(cfg, s, quote, rows, a)
      {
        AgreeIfCovered(cfg, s, quote, rows', a);
      }
    } else {
      DisagreeIfUncovered(cfg, s, quote, rows, a);
    }
  }

  lemma DisagreeIfUncovered(cfg: SimConfig, s: Store, quote: Quote, rows: seq<nat>, a: AccountId)
    requires AtRest(s) && ValidQuote(quote) && RestingRows(s.orders, quote.symbol, rows)
    requires Held(s.positions, a, quote.symbol).quantity >= 0.0
    requires Sum(Traded(quote, a, Buy), s.orders) != 0.0
    requires Sum(Traded(quote, a, Sell), s.orders) > Held(s.positions, a, quote.symbol).quantity
    ensures !SharesAgree(cfg, s, quote, rows, a)
  {
    RowTotals(cfg, s, quote, rows, a);
    RowSumNonNegative(s.orders, quote, a, Buy, rows);
    var held := Held(s.positions, a, quote.symbol).quantity;
    var one := ExtremeRows(s.orders, quote, a, held, rows, true);
    var two := ExtremeRows(s.orders, quote, a, held, rows, false);
    OrdersDisagree(cfg, s, quote, a, held, one, two);
  }

  /** Two orders of the rows that leave different shares. */
  lemma OrdersDisagree(cfg: SimConfig, s: Store, quote: Quote, a: AccountId, held: real, one: seq<nat>, two: seq<nat>)
    requires AtRest(s) && ValidQuote(quote) && held == Held(s.positions, a, quote.symbol).quantity
    requires RestingRows(s.orders, quote.symbol, one) && RestingRows(s.orders, quote.symbol, two)
    requires After(s.orders, quote, a, held, one) != After(s.orders, quote, a, held, two)
    ensures SharesAfter(cfg, s, quote, one, a) != SharesAfter(cfg, s, quote, two, a)
  {
    SharesAfterIs(cfg, s, quote, one, a);
    SharesAfterIs(cfg, s, quote, two, a);
  }

  lemma RowTotals(cfg: SimConfig, s: Store, quote: Quote, rows: seq<nat>, a: AccountId)
    requires AtRest(s) && ValidQuote(quote) && RestingRows(s.orders, quote.symbol, rows)
    ensures Positive(s.orders) && InRange(s.orders, rows)
    ensures RowSum(Traded(quote, a, Buy), s.orders, rows) == Sum(Traded(quote, a, Buy), s.orders)
    ensures RowSum(Traded(quote, a, Sell), s.orders, rows) == Sum(Traded(quote, a, Sell), s.orders)
  {
    RestingQuantities(s);
    AllRowsTrade(cfg, s, quote, rows, a, Buy);
    AllRowsTrade(cfg, s, quote, rows, a, Sell);
  }

  /** The two extreme orders of the rows, and what each leaves. */
  lemma ExtremeRows(orders: seq<Order>, quote: Quote, a: AccountId, held: real, rows: seq<nat>, salesFirst: bool)
    returns (reordered: seq<nat>)
    requires Positive(orders) && RestingRows(orders, quote.symbol, rows) && held >= 0.0
    ensures RestingRows(orders, quote.symbol, reordered)
    ensures
      var bought, sold := RowSum(Traded(quote, a, Buy), orders, rows), RowSum(Traded(quote, a, Sell), orders, rows);
      After(orders, quote, a, held, reordered)
        == if salesFirst then Sold(held, sold) + bought else Sold(held + bought, sold)
  {
    reordered := Reordered(orders, quote, a, salesFirst, rows);
    ReorderedRows(orders, quote, a, salesFirst, rows);
    if salesFirst {
      SalesFirst(orders, quote, a, held, rows);
    } else {
      SalesLast(orders, quote, a, held, rows);
    }
  }

  /** Without brackets the resting sells are covered, so shares agree in every account
      and symbol. */
  lemma PlainSharesAgree(cfg: SimConfig, s: Store, quote: Quote, rows: seq<nat>, rows': seq<nat>)
    requires AtRest(s) && SharesOk(s) && Valued(s) && ValidQuote(quote)
    requires RestingRows(s.orders, quote.symbol, rows) && RestingRows(s.orders, quote.symbol, rows')
    ensures MatchRows(cfg, s, quote, rows).Ok? && MatchRows(cfg, s, quote, rows').Ok?
    ensures
      var one, two := MatchRows(cfg, s, quote, rows).value, MatchRows(cfg, s, quote, rows').value;
      forall a, y :: Held(one.positions, a, y).quantity == Held(two.positions, a, y).quantity
  {
    CashAgrees(cfg, s, quote, rows, rows');
    MatchRowsKeepsShares(cfg, s, quote, rows);
    MatchRowsKeepsShares(cfg, s, quote, rows');
    var one, two := MatchRows(cfg, s, quote, rows).value, MatchRows(cfg, s, quote, rows').value;
    forall a, y
      ensures Held(one.positions, a, y).quantity == Held(two.positions, a, y).quantity
    {
      assert NetGap(one, a, y) == NetGap(s, a, y) == NetGap(two, a, y);
    }
  }

  /** Shares available for sale never depend on the row order, brackets or not. */
  lemma AvailableAgrees(cfg: SimConfig, s: Store, quote: Quote, rows: seq<nat>, rows': seq<nat>, a: AccountId,
      y: Symbol)
    requires AtRest(s) && ValidQuote(quote)
    requires RestingRows(s.orders, quote.symbol, rows) && RestingRows(s.orders, quote.symbol, rows')
    ensures MatchRows(cfg, s, quote, rows).Ok? && MatchRows(cfg, s, quote, rows').Ok?
    ensures
      var one, two := MatchRows(cfg, s, quote, rows).value, MatchRows(cfg, s, quote, rows').value;
      && Held(one.positions, a, y).availableQuantity == Held(two.positions, a, y).availableQuantity
      && (y != quote.symbol ==> Held(one.positions, a, y) == Held(two.positions, a, y))
  {
    if y == quote.symbol {
      MatchedAvailable(cfg, s, quote, rows, a);
      MatchedAvailable(cfg, s, quote, rows', a);
      AllRowsTrade(cfg, s, quote, rows, a, Buy);
      AllRowsTrade(cfg, s, quote, rows', a, Buy);
    } else {
      MatchedElsewhere(cfg, s, quote, rows, a, y);
      MatchedElsewhere(cfg, s, quote, rows', a, y);
    }
  }

  lemma TwoRows(orders: seq<Order>, quote: Quote, a: AccountId, held: real, x: nat, y: nat)
    requires x < |orders| && y < |orders|
    ensures After(orders, quote, a, held, [x, y]) == After(orders, quote, a, After(orders, quote, a, held, [x]), [y])
  {
    AfterConcat(orders, quote, a, held, [x], [y]);
    assert [x] + [y] == [x, y];
  }

  // ---- what does depend on the row order ---------------------------------------------------

  function Gain(cfg: SimConfig, quantity: real, price: real, cost: real): real {
    Amount(quantity, price - cost) - Commission(cfg, Amount(quantity, price))
  }

  /** What one fill does to the other orders, to realised profit and to average cost. */
  lemma FillProfit(cfg: SimConfig, s: Store, id: nat, price: real)
    requires id < |s.orders| && s.orders[id].status == Submitted && s.orders[id].accountId in s.accounts
    ensures ApplyFill(cfg, s, id, price).Ok?
    ensures
      var o, s' := s.orders[id], ApplyFill(cfg, s, id, price).value;
      var held := Held(s.positions, o.accountId, o.symbol);
      && s'.accounts.Keys == s.accounts.Keys
      && |s'.orders| == |s.orders| && (forall k :: 0 <= k < |s.orders| && k != id ==> s'.orders[k] == s.orders[k])
      && s'.accounts[o.accountId].realizedPnl == s.accounts[o.accountId].realizedPnl
           + (if o.side == Buy then 0.0 else Gain(cfg, o.quantity, price, held.avgCost))
      && (o.side == Buy ==>
            Held(s'.positions, o.accountId, o.symbol).avgCost
              == WeightedAvgCost(held.quantity, held.avgCost, o.quantity, CostAt(cfg, o.quantity, price)))
  {
    FillShape(cfg, s, id, price);
    var o := s.orders[id];
    var held := Held(s.positions, o.accountId, o.symbol);
    PutHeld(s.positions, PositionAfter(cfg, held, o, price), o.accountId, o.symbol);
  }

  /** A resting buy and a resting sale of one position. */
  predicate IsPair(s: Store, buy: nat, sale: nat) {
    && buy < |s.orders| && sale < |s.orders|
    && var o, x := s.orders[buy], s.orders[sale];
       && o.status == Submitted && o.side == Buy && o.quantity > 0.0
       && x.status == Submitted && x.side == Sell && x.quantity > 0.0
       && x.accountId == o.accountId && x.symbol == o.symbol && o.accountId in s.accounts
  }

  function FillBoth(cfg: SimConfig, s: Store, first: nat, price: real, second: nat, price': real): Result<Store>
    requires first < |s.orders| && second < |s.orders|
  {
    var one :- ApplyFill(cfg, s, first, price);
    ApplyFill(cfg, one, second, price')
  }

  lemma BuyThenSale(cfg: SimConfig, s: Store, buy: nat, sale: nat, ask: real, bid: real)
    requires IsPair(s, buy, sale)
    ensures
      var o, x, r := s.orders[buy], s.orders[sale], FillBoth(cfg, s, buy, ask, sale, bid);
      var held := Held(s.positions, o.accountId, o.symbol);
      var avg := WeightedAvgCost(held.quantity, held.avgCost, o.quantity, CostAt(cfg, o.quantity, ask));
      && r.Ok? && o.accountId in r.value.accounts
      && r.value.accounts[o.accountId].realizedPnl
           == s.accounts[o.accountId].realizedPnl + Gain(cfg, x.quantity, bid, avg)
  {
    FillProfit(cfg, s, buy, ask);
    FillProfit(cfg, ApplyFill(cfg, s, buy, ask).value, sale, bid);
  }

  lemma SaleThenBuy(cfg: SimConfig, s: Store, buy: nat, sale: nat, ask: real, bid: real)
    requires IsPair(s, buy, sale)
    ensures
      var o, x, r := s.orders[buy], s.orders[sale], FillBoth(cfg, s, sale, bid, buy, ask);
      && r.Ok? && o.accountId in r.value.accounts
      && r.value.accounts[o.accountId].realizedPnl
           == s.accounts[o.accountId].realizedPnl
              + Gain(cfg, x.quantity, bid, Held(s.positions, o.accountId, o.symbol).avgCost)
  {
    FillProfit(cfg, s, sale, bid);
    FillProfit(cfg, ApplyFill(cfg, s, sale, bid).value, buy, ask);
  }

  lemma PairRows(cfg: SimConfig, s: Store, quote: Quote, x: nat, y: nat)
    requires x < |s.orders| && y < |s.orders|
    requires FillPrice(s.orders[x], quote).Some? && FillPrice(s.orders[y], quote).Some? && x != y
    requires ApplyFill(cfg, s, x, FillPrice(s.orders[x], quote).value).Ok?
    requires
      var one := ApplyFill(cfg, s, x, FillPrice(s.orders[x], quote).value).value;
      one.orders[y] == s.orders[y]
    ensures MatchRows(cfg, s, quote, [x, y])
         == FillBoth(cfg, s, x, FillPrice(s.orders[x], quote).value, y, FillPrice(s.orders[y], quote).value)
  {
    assert [x, y][..1] == [x] && [x][..0] == [];
    assert MatchRows(cfg, s, quote, [x]) == Match(cfg, s, x, quote);
  }

  /** Realised profit depends on the row order: a quote that trades a buy and a sale of
      one position leaves the same profit either way exactly when the buy costs per
      share what the shares already held cost. */
  lemma ProfitDependsOnRowOrder(cfg: SimConfig, s: Store, quote: Quote, buy: nat, sale: nat)
    requires IsPair(s, buy, sale)
    requires FillPrice(s.orders[buy], quote).Some? && FillPrice(s.orders[sale], quote).Some?
    requires Held(s.positions, s.orders[buy].accountId, s.orders[buy].symbol).quantity >= 0.0
    ensures
      var o := s.orders[buy];
      var held := Held(s.positions, o.accountId, o.symbol);
      var buyFirst, saleFirst := MatchRows(cfg, s, quote, [buy, sale]), MatchRows(cfg, s, quote, [sale, buy]);
      && buyFirst.Ok? && o.accountId in buyFirst.value.accounts
      && saleFirst.Ok? && o.accountId in saleFirst.value.accounts
      && (buyFirst.value.accounts[o.accountId].realizedPnl == saleFirst.value.accounts[o.accountId].realizedPnl
          <==> CostAt(cfg, o.quantity, Ask(quote)) == Amount(o.quantity, held.avgCost))
  {
    var o, x := s.orders[buy], s.orders[sale];
    var ask, bid := FillPrice(o, quote).value, FillPrice(x, quote).value;
    var held := Held(s.positions, o.accountId, o.symbol);
    PairFillPrices(o, x, quote);
    FillProfit(cfg, s, buy, ask);
    FillProfit(cfg, s, sale, bid);
    PairRows(cfg, s, quote, buy, sale);
    PairRows(cfg, s, quote, sale, buy);
    BuyThenSale(cfg, s, buy, sale, ask, bid);
    SaleThenBuy(cfg, s, buy, sale, ask, bid);
    GainMoves(cfg, held.quantity, held.avgCost, o.quantity, CostAt(cfg, o.quantity, ask), x.quantity, bid);
  }

  lemma PairFillPrices(buy: Order, sale: Order, quote: Quote)
    requires buy.side == Buy && sale.side == Sell && FillPrice(buy, quote).Some? && FillPrice(sale, quote).Some?
    ensures FillPrice(buy, quote) == Some(Ask(quote)) && FillPrice(sale, quote) == Some(Bid(quote))
  {
  }

  lemma GainMoves(cfg: SimConfig, quantity: real, avgCost: real, bought: real, cost: real, sold: real, price: real)
    requires quantity >= 0.0 && bought > 0.0 && sold > 0.0
    ensures Gain(cfg, sold, price, WeightedAvgCost(quantity, avgCost, bought, cost)) == Gain(cfg, sold, price, avgCost)
            <==> cost == Amount(bought, avgCost)
  {
    AverageMoves(quantity, avgCost, bought, cost);
    SameProduct(sold, price - WeightedAvgCost(quantity, avgCost, bought, cost), price - avgCost);
  }

  lemma AverageMoves(quantity: real, avgCost: real, fillQuantity: real, fillCost: real)
    requires quantity >= 0.0 && fillQuantity > 0.0
    ensures WeightedAvgCost(quantity, avgCost, fillQuantity, fillCost) == avgCost
            <==> fillCost == Amount(fillQuantity, avgCost)
  {
    AveragingKeepsBasis(quantity, avgCost, fillQuantity, fillCost);
    var avg := WeightedAvgCost(quantity, avgCost, fillQuantity, fillCost);
    assert Amount(quantity + fillQuantity, avgCost) == Amount(quantity, avgCost) + Amount(fillQuantity, avgCost);
    SameProduct(quantity + fillQuantity, avg, avgCost);
  }

  lemma SameProduct(x: real, y: real, z: real)
    requires x > 0.0
    ensures Amount(x, y) == Amount(x, z) <==> y == z
  {
    NonZeroProduct(x, y - z);
    assert Amount(x, y) - Amount(x, z) == x * (y - z);
  }
}
