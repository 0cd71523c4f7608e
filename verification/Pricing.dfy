/** Prices, commissions and reservations of the paper broker. */
module Pricing {
  import opened Domain
  import opened Tables

  datatype SimConfig = SimConfig(commissionRate: real, minimumCommission: real)

  predicate ValidConfig(cfg: SimConfig) {
    cfg.commissionRate >= 0.0 && cfg.minimumCommission >= 0.0
  }

  function Or(price: Option<real>, fallback: real): real {
    if price.Some? then price.value else fallback
  }

  function Ask(quote: Quote): real { Or(quote.ask, quote.last) }

  function Bid(quote: Quote): real { Or(quote.bid, quote.last) }

  /** What a quantity is worth at a price. */
  function Amount(quantity: real, price: real): real { quantity * price }

  function Commission(cfg: SimConfig, gross: real): real {
    if cfg.commissionRate == 0.0 then 0.0
    else
      var byRate := gross * cfg.commissionRate;
      if byRate >= cfg.minimumCommission then byRate else cfg.minimumCommission
  }

  /** Money that leaves the account when `quantity` shares are bought at `price`. */
  function CostAt(cfg: SimConfig, quantity: real, price: real): real {
    Amount(quantity, price) + Commission(cfg, Amount(quantity, price))
  }

  /** Money that reaches the account when `quantity` shares are sold at `price`. */
  function ProceedsAt(cfg: SimConfig, quantity: real, price: real): real {
    Amount(quantity, price) - Commission(cfg, Amount(quantity, price))
  }

  /** Cash to freeze for an order: by limit price, else by the quote's ask, else
      by the execution price; with none of the three there is no answer. */
  function ReservedCash(cfg: SimConfig, o: Order, quote: Option<Quote>, execution: Option<real>)
    : Result<real>
  {
    if o.limitPrice.Some? then Ok(CostAt(cfg, o.quantity, o.limitPrice.value))
    else if quote.Some? then Ok(CostAt(cfg, o.quantity, Ask(quote.value)))
    else if execution.Some? then Ok(CostAt(cfg, o.quantity, execution.value))
    else Raised(ReservationNeedsQuote)
  }

  predicate IsBracket(o: Order) {
    o.side == Sell && o.orderType in {LimitIfTouched, StopLimit}
  }

  /** The price at which an order trades against a quote, if it does. */
  function FillPrice(o: Order, quote: Quote): Option<real> {
    if o.orderType == Market then
      Some(if o.side == Buy then Ask(quote) else Bid(quote))
    else if o.limitPrice.None? then None
    else
      var limit := o.limitPrice.value;
      if o.orderType == LimitIfTouched && o.side == Sell then
        if Bid(quote) >= limit then Some(Bid(quote)) else None
      else if o.orderType == StopLimit && o.side == Sell then
        if Bid(quote) <= limit then Some(Bid(quote)) else None
      else if o.side == Buy then
        if limit >= Ask(quote) then Some(Ask(quote)) else None
      else
        if limit <= Bid(quote) then Some(Bid(quote)) else None
  }

  /** The best prices of a quote; the last price stands in for a missing side. */
  predicate BestPrices(quote: Quote, bid: real, ask: real) {
    && (quote.bid == Some(bid) || (quote.bid.None? && bid == quote.last))
    && (quote.ask == Some(ask) || (quote.ask.None? && ask == quote.last))
  }

  lemma BestPricesAre(quote: Quote)
    ensures BestPrices(quote, Bid(quote), Ask(quote))
  {
  }

  /** A market order always trades; a stop sale once the bid has fallen to its limit, any
      other sale while the bid is at its limit or above, a buy while the ask is at its
      limit or below. */
  predicate Reaches(o: Order, bid: real, ask: real) {
    match o.orderType
    case Market => true
    case StopLimit =>
      o.limitPrice.Some? && if o.side == Sell then bid <= o.limitPrice.value else ask <= o.limitPrice.value
    case _ =>
      o.limitPrice.Some? && if o.side == Sell then o.limitPrice.value <= bid else ask <= o.limitPrice.value
  }

  /** A fill keeps to the limit: sales at or above their limit, except stops at or
      below it, and buys at or below it. */
  predicate WithinLimit(o: Order) {
    o.avgFillPrice.Some? && o.orderType != Market ==>
      && o.limitPrice.Some?
      && if o.side == Buy || o.orderType == StopLimit then o.avgFillPrice.value <= o.limitPrice.value
         else o.limitPrice.value <= o.avgFillPrice.value
  }

  /** An order trades exactly when the prices reach it: a buy at the ask, a sale at the bid. */
  lemma FillPriceIff(o: Order, quote: Quote)
    ensures FillPrice(o, quote)
         == if Reaches(o, Bid(quote), Ask(quote)) then Some(if o.side == Buy then Ask(quote) else Bid(quote)) else None
    ensures WithinLimit(o.(avgFillPrice := FillPrice(o, quote)))
  {
  }

  function WeightedAvgCost(quantity: real, avgCost: real, fillQuantity: real, fillCost: real): real {
    var total := quantity + fillQuantity;
    if total <= 0.0 then 0.0 else (Amount(quantity, avgCost) + fillCost) / total
  }

  /** Averaging loses no cost: the new basis is the old basis plus the fill. */
  lemma AveragingKeepsBasis(quantity: real, avgCost: real, fillQuantity: real, fillCost: real)
    requires quantity + fillQuantity > 0.0
    ensures Amount(quantity + fillQuantity, WeightedAvgCost(quantity, avgCost, fillQuantity, fillCost))
         == Amount(quantity, avgCost) + fillCost
  {
  }

  lemma ProductNonNegative(x: real, y: real)
    requires x >= 0.0 && y >= 0.0
    ensures x * y >= 0.0
  {
  }

  lemma CommissionBounds(cfg: SimConfig, gross: real)
    requires ValidConfig(cfg) && gross >= 0.0
    ensures Commission(cfg, gross) >= 0.0
  {
    ProductNonNegative(gross, cfg.commissionRate);
  }

  lemma CommissionMonotone(cfg: SimConfig, less: real, more: real)
    requires ValidConfig(cfg) && less <= more
    ensures Commission(cfg, less) <= Commission(cfg, more)
  {
    ProductNonNegative(more - less, cfg.commissionRate);
    assert (more - less) * cfg.commissionRate == more * cfg.commissionRate - less * cfg.commissionRate;
  }

  /** A dearer fill never costs less. */
  lemma CostMonotone(cfg: SimConfig, quantity: real, lower: real, upper: real)
    requires ValidConfig(cfg) && quantity >= 0.0 && lower <= upper
    ensures CostAt(cfg, quantity, lower) <= CostAt(cfg, quantity, upper)
  {
    ProductNonNegative(quantity, upper - lower);
    assert quantity * (upper - lower) == Amount(quantity, upper) - Amount(quantity, lower);
    CommissionMonotone(cfg, Amount(quantity, lower), Amount(quantity, upper));
  }

  lemma CostNonNegative(cfg: SimConfig, quantity: real, price: real)
    requires ValidConfig(cfg) && quantity >= 0.0 && price >= 0.0
    ensures CostAt(cfg, quantity, price) >= 0.0
  {
    ProductNonNegative(quantity, price);
    CommissionBounds(cfg, Amount(quantity, price));
  }
}
