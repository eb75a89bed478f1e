/** The two limit-fill models of app/broker/fill_models.py and what the ledger may rely on. */
module FillModels {
  import opened Dicts
  import opened Domain

  datatype FillDecision = FillDecision(quantity: int, price: Option<real>, seed: nat, reason: string) {
    predicate ShouldFill() {
      quantity > 0 && price.Some?
    }
  }

  /** `seedFor(order, quote)` is the first eight bytes of a hash; only its determinism matters. */
  datatype FillModel =
    | Optimistic(seedFor: (Id, Id) -> nat)
    | Conservative(seedFor: (Id, Id) -> nat, touchProbability: real, participation: real)
  {
    /** What the constructor of the conservative model checks. */
    predicate Valid() {
      Conservative? ==> 0.0 <= touchProbability <= 1.0 && 0.0 < participation <= 1.0
    }
  }

  function Least(a: real, b: real): real { if a <= b then a else b }
  function Greatest(a: real, b: real): real { if a >= b then a else b }
  function LeastInt(a: int, b: int): int { if a <= b then a else b }

  function Evaluate(m: FillModel, order: BrokerOrder, quote: Quote, remaining: int): FillDecision {
    var seed := m.seedFor(order.orderId, quote.snapshotId);
    if remaining <= 0 then FillDecision(0, None, seed, "order has no remaining quantity")
    else match m
      case Optimistic(_) => EvaluateOptimistic(order, quote, remaining, seed)
      case Conservative(_, touch, participation) =>
        EvaluateConservative(touch, participation, order, quote, remaining, seed)
  }

  function EvaluateOptimistic(order: BrokerOrder, quote: Quote, remaining: int, seed: nat): FillDecision {
    var displayed := if order.side.BuyToOpen? then quote.ask <= order.limit && quote.ask > 0.0
                     else quote.bid >= order.limit && quote.bid > 0.0;
    var last := quote.last.Some? &&
                (if order.side.BuyToOpen? then quote.last.value <= order.limit
                 else quote.last.value >= order.limit);
    if !displayed && !last then FillDecision(0, None, seed, "limit was not touched")
    else
      var price := if !displayed then order.limit
                   else if order.side.BuyToOpen? then Least(order.limit, quote.ask)
                   else Greatest(order.limit, quote.bid);
      FillDecision(remaining, Some(price), seed, "optimistic model filled on touch")
  }

  function EvaluateConservative(touch: real, participation: real, order: BrokerOrder, quote: Quote,
                                remaining: int, seed: nat): FillDecision {
    var buy := order.side.BuyToOpen?;
    var price := if buy then quote.ask else quote.bid;
    var size := if buy then quote.askSize else quote.bidSize;
    var improved := if buy then price > 0.0 && price < order.limit else price > order.limit;
    var touched := price > 0.0 && price == order.limit;
    if !improved && !touched then
      FillDecision(0, None, seed, "displayed market did not reach the limit")
    else if size.Some? && size.value <= 0 then
      FillDecision(0, None, seed, "displayed executable size was zero")
    else if touched && (seed % 1_000_000) as real / 1_000_000.0 >= touch then
      FillDecision(0, None, seed, "limit touched but deterministic queue gate missed")
    else
      var quantity := if size.None? then LeastInt(remaining, 1)
                      else var part := (size.value as real * participation).Floor;
                           LeastInt(remaining, if part > 1 then part else 1);
      FillDecision(quantity, Some(price), seed,
                   if improved then "market traded through limit" else "queue gate accepted limit touch")
  }

  /** A fill decided for an order never exceeds what remains, has a positive price and is never
      worse than the limit, whatever the quote. */
  ghost predicate Sound(order: BrokerOrder, remaining: int, d: FillDecision) {
    d.ShouldFill() ==>
      && 0 < d.quantity <= remaining
      && d.price.value > 0.0
      && (order.side.BuyToOpen? ==> d.price.value <= order.limit)
      && (order.side.SellToClose? ==> d.price.value >= order.limit)
  }

  lemma EvaluateSound(m: FillModel, order: BrokerOrder, quote: Quote, remaining: int)
    ensures Sound(order, remaining, Evaluate(m, order, quote, remaining))
  {
    match m
    case Optimistic(seedFor) =>
    case Conservative(seedFor, touch, participation) =>
  }

  /** The conservative model only ever takes a part of what the optimistic model takes, at the
      same price, and never more than the displayed size. */
  lemma ConservativeIsWithinOptimistic(c: FillModel, o: FillModel, order: BrokerOrder, quote: Quote, remaining: int)
    requires c.Conservative? && c.Valid() && o.Optimistic?
    requires Evaluate(c, order, quote, remaining).ShouldFill()
    ensures Evaluate(o, order, quote, remaining).ShouldFill()
    ensures Evaluate(o, order, quote, remaining).price == Evaluate(c, order, quote, remaining).price
    ensures Evaluate(o, order, quote, remaining).quantity >= Evaluate(c, order, quote, remaining).quantity
    ensures var size := if order.side.BuyToOpen? then quote.askSize else quote.bidSize;
            size.Some? ==> Evaluate(c, order, quote, remaining).quantity <= size.value
  {
    var size := if order.side.BuyToOpen? then quote.askSize else quote.bidSize;
    if size.Some? { FloorShrink(size.value, c.participation); }
  }

  lemma FloorShrink(n: nat, p: real)
    requires p <= 1.0
    ensures (n as real * p).Floor <= n
  {
    var x := n as real;
    assert x * p == x - x * (1.0 - p);
    assert x * (1.0 - p) >= 0.0;
    assert (x * p).Floor as real <= x * p <= x;
  }
}
