/** The synchronous pre-trade rules. */
module Risk {
  import opened Domain
  import opened Tables
  import opened Pricing
  import opened OrderService

  datatype RiskConfig = RiskConfig(
    maxSingleOrderValue: real,
    maxDailyLoss: real,
    maxDailyOrderCount: int,
    cooldownSeconds: int,
    maxLimitPriceDeviation: real,
    requireMarketSession: bool,
    maxPositionRatio: Option<real>)

  datatype Reason =
    | Approved
    | AccountNotFound
    | QuoteSymbolMismatch
    | MarketClosed
    | MaxSingleOrderValueExceeded
    | InsufficientCash
    | InsufficientPosition
    | DailyLossLimitExceeded
    | MaxDailyOrderCountExceeded
    | MaxPositionRatioExceeded
    | LimitPriceDeviationExceeded
    | DuplicateOpenOrder
    | DuplicateOrderCooldown

  /** What the caller supplies besides the order itself. */
  datatype Context = Context(quote: Option<Quote>, marketOpen: Option<bool>, now: int)

  const SECONDS_PER_DAY := 86400

  function DayStart(now: int): int { now - now % SECONDS_PER_DAY }

  /** Notional value by limit price, else by the side's best quote, else zero. */
  function EstimatedValue(o: Order, quote: Option<Quote>): real {
    if o.limitPrice.Some? then Amount(o.quantity, o.limitPrice.value)
    else if quote.Some? then
      Amount(o.quantity, if o.side == Buy then Ask(quote.value) else Bid(quote.value))
    else 0.0
  }

  predicate IsOpen(status: OrderStatus) {
    status in {Created, RiskApproved, Submitting, Submitted, PartiallyFilled}
  }

  predicate Similar(o: Order, other: Order) {
    other.accountId == o.accountId && other.symbol == o.symbol && other.side == o.side
  }

  /** Orders of the account created on or after `since`, not counting order `id`. */
  function CountSince(orders: seq<Order>, id: nat, a: AccountId, since: int): nat {
    if orders == [] then 0
    else
      var last := |orders| - 1;
      CountSince(orders[..last], id, a, since)
      + (if last != id && orders[last].accountId == a && orders[last].createdAt >= since then 1 else 0)
  }

  predicate DuplicateOpen(orders: seq<Order>, id: nat)
    requires id < |orders|
  {
    exists k :: 0 <= k < |orders| && k != id && Similar(orders[id], orders[k]) && IsOpen(orders[k].status)
  }

  predicate DuplicateRecent(orders: seq<Order>, id: nat, since: int)
    requires id < |orders|
  {
    exists k :: 0 <= k < |orders| && k != id && Similar(orders[id], orders[k]) && orders[k].createdAt >= since
  }

  function Abs(x: real): real { if x < 0.0 then -x else x }

  predicate ExceedsRatio(cfg: RiskConfig, equity: real, value: real) {
    cfg.maxPositionRatio.Some? && equity > 0.0 && value / equity > cfg.maxPositionRatio.value
  }

  predicate Deviates(cfg: RiskConfig, price: real, last: real)
    requires last > 0.0
  {
    Abs(price - last) / last > cfg.maxLimitPriceDeviation
  }

  /** The rules from the daily order count on. */
  function CheckActivity(cfg: RiskConfig, s: Store, id: nat, ctx: Context, value: real): Reason
    requires id < |s.orders| && s.orders[id].accountId in s.accounts
    requires ctx.quote.Some? ==> ValidQuote(ctx.quote.value)
  {
    var o := s.orders[id];
    if CountSince(s.orders, id, o.accountId, DayStart(ctx.now)) >= cfg.maxDailyOrderCount then
      MaxDailyOrderCountExceeded
    else if o.side == Buy && ExceedsRatio(cfg, s.accounts[o.accountId].equity,
                                          Held(s.positions, o.accountId, o.symbol).marketValue + value) then
      MaxPositionRatioExceeded
    else if o.limitPrice.Some? && ctx.quote.Some? && Deviates(cfg, o.limitPrice.value, ctx.quote.value.last) then
      LimitPriceDeviationExceeded
    else if DuplicateOpen(s.orders, id) then DuplicateOpenOrder
    else if DuplicateRecent(s.orders, id, ctx.now - cfg.cooldownSeconds) then DuplicateOrderCooldown
    else Approved
  }

  /** The first rule that fails, in the order they are applied. */
  function Check(cfg: RiskConfig, s: Store, id: nat, ctx: Context): Reason
    requires id < |s.orders|
    requires ctx.quote.Some? ==> ValidQuote(ctx.quote.value)
  {
    var o := s.orders[id];
    if o.accountId !in s.accounts then AccountNotFound
    else if ctx.quote.Some? && ctx.quote.value.symbol != o.symbol then QuoteSymbolMismatch
    else if cfg.requireMarketSession && ctx.marketOpen == Some(false) then MarketClosed
    else
      var account := s.accounts[o.accountId];
      var held := Held(s.positions, o.accountId, o.symbol);
      var value := EstimatedValue(o, ctx.quote);
      if value > cfg.maxSingleOrderValue then MaxSingleOrderValueExceeded
      else if o.side == Buy && account.cashAvailable < value then InsufficientCash
      else if o.side == Sell && held.availableQuantity < o.quantity then InsufficientPosition
      else if account.realizedPnl <= -cfg.maxDailyLoss then DailyLossLimitExceeded
      else CheckActivity(cfg, s, id, ctx, value)
  }

  // ---- what a verdict means ------------------------------------------------------------------

  /** The order in which the rules apply; approval comes after all of them. */
  function Rank(rule: Reason): nat {
    match rule
    case AccountNotFound => 0
    case QuoteSymbolMismatch => 1
    case MarketClosed => 2
    case MaxSingleOrderValueExceeded => 3
    case InsufficientCash => 4
    case InsufficientPosition => 5
    case DailyLossLimitExceeded => 6
    case MaxDailyOrderCountExceeded => 7
    case MaxPositionRatioExceeded => 8
    case LimitPriceDeviationExceeded => 9
    case DuplicateOpenOrder => 10
    case DuplicateOrderCooldown => 11
    case Approved => 12
  }

  /** Orders of the account other than this one, created on the day of `now` or later; days
      begin at midnight. */
  ghost function SinceToday(orders: seq<Order>, id: nat, a: AccountId, now: int): set<nat> {
    set k: nat | k < |orders| && k != id && orders[k].accountId == a
                 && orders[k].createdAt / SECONDS_PER_DAY >= now / SECONDS_PER_DAY
  }

  lemma SameDayIff(t: int, now: int)
    ensures t >= DayStart(now) <==> t / SECONDS_PER_DAY >= now / SECONDS_PER_DAY
  {
  }

  lemma SincePush(orders: seq<Order>, o: Order, id: nat, a: AccountId, now: int)
    ensures |SinceToday(orders + [o], id, a, now)|
         == |SinceToday(orders, id, a, now)|
            + (if |orders| != id && o.accountId == a && o.createdAt >= DayStart(now) then 1 else 0)
  {
    SameDayIff(o.createdAt, now);
    var all := orders + [o];
    var was := SinceToday(orders, id, a, now);
    assert forall k :: 0 <= k < |orders| ==> all[k] == orders[k];
    assert all[|orders|] == o && |orders| !in was;
    if |orders| != id && o.accountId == a && o.createdAt >= DayStart(now) {
      assert SinceToday(all, id, a, now) == was + {|orders|};
    } else {
      assert SinceToday(all, id, a, now) == was;
    }
  }

  lemma {:induction false} CountIs(orders: seq<Order>, id: nat, a: AccountId, now: int)
    ensures CountSince(orders, id, a, DayStart(now)) == |SinceToday(orders, id, a, now)|
  {
    if orders == [] {
      assert SinceToday(orders, id, a, now) == {};
    } else {
      var before, last := orders[..|orders| - 1], orders[|orders| - 1];
      assert orders == before + [last];
      CountIs(before, id, a, now);
      SincePush(before, last, id, a, now);
    }
  }

  lemma RatioExceeds(part: real, whole: real, limit: real)
    requires whole > 0.0
    ensures part / whole > limit <==> part > Amount(limit, whole)
  {
    var share := part / whole;
    assert part == share * whole;
    if share > limit {
      ProductPositive(share - limit, whole);
      assert (share - limit) * whole == share * whole - limit * whole;
    } else {
      ProductNonNegative(limit - share, whole);
      assert (limit - share) * whole == limit * whole - share * whole;
    }
  }

  lemma ProductPositive(x: real, y: real)
    requires x > 0.0 && y > 0.0
    ensures x * y > 0.0
  {
  }

  /** A price deviates when it leaves the band around the last price. */
  lemma DeviatesIff(cfg: RiskConfig, price: real, last: real)
    requires last > 0.0
    ensures Deviates(cfg, price, last)
            <==> !(last - Amount(cfg.maxLimitPriceDeviation, last) <= price
                   <= last + Amount(cfg.maxLimitPriceDeviation, last))
  {
    RatioExceeds(Abs(price - last), last, cfg.maxLimitPriceDeviation);
  }

  /** The value an order is judged by: at its limit; without one, a buy at the ask and a sale
      at the bid, the last price standing in for either; nothing without a quote. */
  ghost predicate IsValue(o: Order, quote: Option<Quote>, value: real) {
    match (o.limitPrice, quote)
    case (Some(limit), _) => value == o.quantity * limit
    case (None, None) => value == 0.0
    case (None, Some(q)) =>
      match if o.side == Buy then q.ask else q.bid
      case Some(best) => value == o.quantity * best
      case None => value == o.quantity * q.last
  }

  lemma ValueIs(o: Order, quote: Option<Quote>)
    ensures IsValue(o, quote, EstimatedValue(o, quote))
  {
  }

  /** Same account, symbol and side. */
  predicate SameTrade(o: Order, other: Order) {
    (o.accountId, o.symbol, o.side) == (other.accountId, other.symbol, other.side)
  }

  /** The order breaks this rule, whatever the others say. */
  ghost predicate Breaks(cfg: RiskConfig, s: Store, id: nat, ctx: Context, rule: Reason)
    requires id < |s.orders|
    requires ctx.quote.Some? ==> ValidQuote(ctx.quote.value)
  {
    var o := s.orders[id];
    var value, held := EstimatedValue(o, ctx.quote), Held(s.positions, o.accountId, o.symbol);
    var known := o.accountId in s.accounts;
    match rule
    case AccountNotFound => !known
    case QuoteSymbolMismatch => ctx.quote.Some? && ctx.quote.value.symbol != o.symbol
    case MarketClosed => cfg.requireMarketSession && ctx.marketOpen == Some(false)
    case MaxSingleOrderValueExceeded => value > cfg.maxSingleOrderValue
    case InsufficientCash => known && o.side == Buy && s.accounts[o.accountId].cashAvailable < value
    case InsufficientPosition => o.side == Sell && held.availableQuantity < o.quantity
    case DailyLossLimitExceeded => known && s.accounts[o.accountId].realizedPnl <= -cfg.maxDailyLoss
    case MaxDailyOrderCountExceeded =>
      |SinceToday(s.orders, id, o.accountId, ctx.now)| >= cfg.maxDailyOrderCount
    case MaxPositionRatioExceeded =>
      && known && o.side == Buy && cfg.maxPositionRatio.Some? && s.accounts[o.accountId].equity > 0.0
      && held.marketValue + value > Amount(cfg.maxPositionRatio.value, s.accounts[o.accountId].equity)
    case LimitPriceDeviationExceeded =>
      && o.limitPrice.Some? && ctx.quote.Some?
      && var last := ctx.quote.value.last;
         !(last - Amount(cfg.maxLimitPriceDeviation, last) <= o.limitPrice.value
           <= last + Amount(cfg.maxLimitPriceDeviation, last))
    case DuplicateOpenOrder =>
      exists k :: 0 <= k < |s.orders| && k != id && SameTrade(o, s.orders[k])
                  && s.orders[k].status in {Created, RiskApproved, Submitting, Submitted, PartiallyFilled}
    case DuplicateOrderCooldown =>
      exists k :: 0 <= k < |s.orders| && k != id && SameTrade(o, s.orders[k])
                  && s.orders[k].createdAt + cfg.cooldownSeconds >= ctx.now
    case Approved => true
  }

  /** The first rule the order breaks; approval if it breaks none. */
  ghost predicate IsVerdict(cfg: RiskConfig, s: Store, id: nat, ctx: Context, reason: Reason)
    requires id < |s.orders|
    requires ctx.quote.Some? ==> ValidQuote(ctx.quote.value)
  {
    && Breaks(cfg, s, id, ctx, reason)
    && forall rule :: Rank(rule) < Rank(reason) ==> !Breaks(cfg, s, id, ctx, rule)
  }

  /** The cascade of checks finds the verdict, and there is only one. */
  lemma CheckMeans(cfg: RiskConfig, s: Store, id: nat, ctx: Context, reason: Reason)
    requires id < |s.orders|
    requires ctx.quote.Some? ==> ValidQuote(ctx.quote.value)
    ensures IsVerdict(cfg, s, id, ctx, reason) <==> reason == Check(cfg, s, id, ctx)
  {
    CheckIsVerdict(cfg, s, id, ctx);
    var found := Check(cfg, s, id, ctx);
    if IsVerdict(cfg, s, id, ctx, reason) {
      assert Rank(found) >= Rank(reason) && Rank(reason) >= Rank(found);
    }
  }

  lemma CheckIsVerdict(cfg: RiskConfig, s: Store, id: nat, ctx: Context)
    requires id < |s.orders|
    requires ctx.quote.Some? ==> ValidQuote(ctx.quote.value)
    ensures IsVerdict(cfg, s, id, ctx, Check(cfg, s, id, ctx))
  {
    var o := s.orders[id];
    var value := EstimatedValue(o, ctx.quote);
    if o.accountId in s.accounts && Check(cfg, s, id, ctx) == CheckActivity(cfg, s, id, ctx, value) {
      ActivityIsVerdict(cfg, s, id, ctx);
    }
  }

  lemma ActivityIsVerdict(cfg: RiskConfig, s: Store, id: nat, ctx: Context)
    requires id < |s.orders| && s.orders[id].accountId in s.accounts
    requires ctx.quote.Some? ==> ValidQuote(ctx.quote.value)
    ensures
      var reason := CheckActivity(cfg, s, id, ctx, EstimatedValue(s.orders[id], ctx.quote));
      var count, ratio := Breaks(cfg, s, id, ctx, MaxDailyOrderCountExceeded),
                          Breaks(cfg, s, id, ctx, MaxPositionRatioExceeded);
      var price, open := Breaks(cfg, s, id, ctx, LimitPriceDeviationExceeded),
                         Breaks(cfg, s, id, ctx, DuplicateOpenOrder);
      var recent := Breaks(cfg, s, id, ctx, DuplicateOrderCooldown);
      reason == if count then MaxDailyOrderCountExceeded
                else if ratio then MaxPositionRatioExceeded
                else if price then LimitPriceDeviationExceeded
                else if open then DuplicateOpenOrder
                else if recent then DuplicateOrderCooldown
                else Approved
  {
    MarketRulesIff(cfg, s, id, ctx);
    DuplicatesIff(cfg, s, id, ctx);
  }

  lemma MarketRulesIff(cfg: RiskConfig, s: Store, id: nat, ctx: Context)
    requires id < |s.orders| && (ctx.quote.Some? ==> ValidQuote(ctx.quote.value))
    ensures
      var o := s.orders[id];
      var value := Held(s.positions, o.accountId, o.symbol).marketValue + EstimatedValue(o, ctx.quote);
      && (Breaks(cfg, s, id, ctx, MaxDailyOrderCountExceeded)
          <==> CountSince(s.orders, id, o.accountId, DayStart(ctx.now)) >= cfg.maxDailyOrderCount)
      && (Breaks(cfg, s, id, ctx, MaxPositionRatioExceeded)
          <==> o.accountId in s.accounts && o.side == Buy && ExceedsRatio(cfg, s.accounts[o.accountId].equity, value))
      && (Breaks(cfg, s, id, ctx, LimitPriceDeviationExceeded)
          <==> && o.limitPrice.Some? && ctx.quote.Some?
               && Deviates(cfg, o.limitPrice.value, ctx.quote.value.last))
  {
    var o := s.orders[id];
    CountIs(s.orders, id, o.accountId, ctx.now);
    if o.limitPrice.Some? && ctx.quote.Some? {
      DeviatesIff(cfg, o.limitPrice.value, ctx.quote.value.last);
    }
    if o.accountId in s.accounts && cfg.maxPositionRatio.Some? && s.accounts[o.accountId].equity > 0.0 {
      var value := Held(s.positions, o.accountId, o.symbol).marketValue + EstimatedValue(o, ctx.quote);
      RatioExceeds(value, s.accounts[o.accountId].equity, cfg.maxPositionRatio.value);
    }
  }

  lemma DuplicatesIff(cfg: RiskConfig, s: Store, id: nat, ctx: Context)
    requires id < |s.orders| && (ctx.quote.Some? ==> ValidQuote(ctx.quote.value))
    ensures Breaks(cfg, s, id, ctx, DuplicateOpenOrder) <==> DuplicateOpen(s.orders, id)
    ensures Breaks(cfg, s, id, ctx, DuplicateOrderCooldown)
            <==> DuplicateRecent(s.orders, id, ctx.now - cfg.cooldownSeconds)
  {
  }

  /** Apply the rules to a created order and move it accordingly. */
  function RunRiskCheck(cfg: RiskConfig, s: Store, id: nat, ctx: Context): Result<Store>
    requires id < |s.orders|
    requires ctx.quote.Some? ==> ValidQuote(ctx.quote.value)
  {
    var approved := Check(cfg, s, id, ctx) == Approved;
    var moved :- Transition(s, id, if approved then RiskApproved else RiskRejected, RiskCheckCompleted);
    Ok(if approved then Enqueue(moved, OrderReadyToSubmit(id)) else moved)
  }
}
