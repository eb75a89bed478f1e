/** The review of closed positions: flat-to-flat cycles recomputed from the durable order and
    fill rows alone. Decimal rounding of the return is left out. */
module Outcomes {
  import opened Dicts
  import opened Domain
  import opened Folds
  import opened Sorting

  datatype OrderRow = OrderRow(at: int, order: BrokerOrder)
  datatype FillRow = FillRow(at: int, sequence: int, fill: Fill)

  datatype ReviewFault =
    | ImpossibleFilled | InconsistentTerms | InconsistentFill | OrphanFill | FillPrecedesOrder
    | ConflictingIntent | InconsistentContract | Unreconciled | Oversold

  datatype Terms = Terms(
    orderId: Id, intentId: Id, environment: Environment, contract: Contract, side: Side, quantity: int, limit: real)

  function TermsOf(o: BrokerOrder): Terms {
    Terms(o.orderId, o.intentId, o.environment, o.contract, o.side, o.quantity, o.limit)
  }

  // ---- the rows -----------------------------------------------------------------------------

  datatype OrderBook = OrderBook(orders: map<Id, BrokerOrder>, filled: map<Id, int>)

  function Recorded(m: map<Id, int>, id: Id): int {
    if id in m then m[id] else 0
  }

  predicate OrderVisible(row: OrderRow, now: int) {
    row.at <= now && row.order.createdAt <= now
    && (row.order.submittedAt.Some? ==> row.order.submittedAt.value.t <= now)
  }

  function TakeOrder(b: OrderBook, row: OrderRow, now: int): Result<OrderBook, ReviewFault> {
    var o := row.order;
    if !OrderVisible(row, now) then Ok(b)
    else if o.filled > o.quantity then Err(ImpossibleFilled)
    else if o.orderId in b.orders && TermsOf(b.orders[o.orderId]) != TermsOf(o) then Err(InconsistentTerms)
    else
      var most := if Recorded(b.filled, o.orderId) >= o.filled then Recorded(b.filled, o.orderId) else o.filled;
      Ok(OrderBook(b.orders[o.orderId := o], b.filled[o.orderId := most]))
  }

  function OrderStep(now: int): (OrderBook, OrderRow) -> Result<OrderBook, ReviewFault> {
    (b: OrderBook, row: OrderRow) => TakeOrder(b, row, now)
  }

  type FillBook = Dict<Id, (Fill, int)>

  function TakeFill(b: FillBook, row: FillRow, now: int): Result<FillBook, ReviewFault> {
    var f := row.fill;
    if row.at > now || f.createdAt > now then Ok(b)
    else
      match Get(b, f.fillId)
      case None => Ok(Put(b, f.fillId, (f, row.sequence)))
      case Some(p) =>
        if p.0 != f then Err(InconsistentFill)
        else Ok(Put(b, f.fillId, (f, if p.1 <= row.sequence then p.1 else row.sequence)))
  }

  function FillStep(now: int): (FillBook, FillRow) -> Result<FillBook, ReviewFault> {
    (b: FillBook, row: FillRow) => TakeFill(b, row, now)
  }

  // ---- matching fills to orders -------------------------------------------------------------

  datatype MatchBook = MatchBook(byOrder: map<Id, int>, intents: map<Id, Id>, contracts: map<Id, Contract>)

  function TakeMatch(orders: map<Id, BrokerOrder>, b: MatchBook, f: Fill): Result<MatchBook, ReviewFault> {
    if f.orderId !in orders then Err(OrphanFill)
    else
      var o := orders[f.orderId];
      if o.createdAt > f.createdAt || (o.submittedAt.Some? && o.submittedAt.value.t > f.createdAt) then Err(FillPrecedesOrder)
      else if o.intentId in b.intents && b.intents[o.intentId] != o.orderId then Err(ConflictingIntent)
      else
        var at := o.contract.instrument;
        var contracts := if at in b.contracts then b.contracts else b.contracts[at := o.contract];
        if contracts[at] != o.contract then Err(InconsistentContract)
        else Ok(MatchBook(b.byOrder[o.orderId := Recorded(b.byOrder, o.orderId) + f.quantity],
                          b.intents[o.intentId := o.orderId], contracts))
  }

  function MatchStep(orders: map<Id, BrokerOrder>): (MatchBook, (Fill, int)) -> Result<MatchBook, ReviewFault> {
    (b: MatchBook, p: (Fill, int)) => TakeMatch(orders, b, p.0)
  }

  predicate Reconciled(b: OrderBook, byOrder: map<Id, int>) {
    forall id :: id in b.orders ==>
      Recorded(byOrder, id) == Recorded(b.filled, id) && Recorded(byOrder, id) <= b.orders[id].quantity
  }

  // ---- cycles -------------------------------------------------------------------------------

  datatype Trade = Trade(fill: Fill, terms: Option<Terms>)

  datatype Cycle = Cycle(contract: Contract, entries: seq<Fill>, exits: seq<Fill>, orders: seq<Id>, balance: int)

  datatype ClosedOutcome = ClosedOutcome(
    contract: Contract, openedAt: int, closedAt: int, entryFills: seq<Id>, exitFills: seq<Id>, orders: seq<Id>,
    bought: int, sold: int, cost: real, proceeds: real, pnl: real, hold: int)

  datatype CycleBook = CycleBook(open: map<Id, Cycle>, done: seq<ClosedOutcome>)

  function TotalValue(fs: seq<Fill>, multiplier: int): real {
    if fs == [] then 0.0
    else TotalValue(fs[..|fs| - 1], multiplier) + Value(fs[|fs| - 1].price, fs[|fs| - 1].quantity, multiplier)
  }

  function TotalQuantity(fs: seq<Fill>): int {
    if fs == [] then 0 else TotalQuantity(fs[..|fs| - 1]) + fs[|fs| - 1].quantity
  }

  function IdsOf(fs: seq<Fill>): seq<Id> {
    seq(|fs|, i requires 0 <= i < |fs| => fs[i].fillId)
  }

  function OutcomeOf(c: Cycle): ClosedOutcome
    requires c.entries != [] && c.exits != []
  {
    var m := c.contract.multiplier;
    var cost := TotalValue(c.entries, m);
    var proceeds := TotalValue(c.exits, m);
    var openedAt, closedAt := c.entries[0].createdAt, c.exits[|c.exits| - 1].createdAt;
    ClosedOutcome(c.contract, openedAt, closedAt, IdsOf(c.entries), IdsOf(c.exits), c.orders,
                  TotalQuantity(c.entries), TotalQuantity(c.exits), cost, proceeds, proceeds - cost, closedAt - openedAt)
  }

  function CycleFor(b: CycleBook, contract: Contract): Cycle {
    if contract.instrument in b.open then b.open[contract.instrument] else Cycle(contract, [], [], [], 0)
  }

  function TakeTrade(b: CycleBook, t: Trade): Result<CycleBook, ReviewFault> {
    match t.terms
    case None => Err(OrphanFill)
    case Some(o) =>
      var at := o.contract.instrument;
      var c := CycleFor(b, o.contract);
      var orders := if o.orderId in c.orders then c.orders else c.orders + [o.orderId];
      if o.side.SellToClose? && t.fill.quantity > c.balance then Err(Oversold)
      else
        var d := if o.side.BuyToOpen?
                 then c.(entries := c.entries + [t.fill], orders := orders, balance := c.balance + t.fill.quantity)
                 else c.(exits := c.exits + [t.fill], orders := orders, balance := c.balance - t.fill.quantity);
        if d.balance == 0 && d.entries != [] && d.exits != [] then Ok(CycleBook(b.open - {at}, b.done + [OutcomeOf(d)]))
        else Ok(CycleBook(b.open[at := d], b.done))
  }

  const TradeStep: (CycleBook, Trade) -> Result<CycleBook, ReviewFault> :=
    (b: CycleBook, t: Trade) => TakeTrade(b, t)

  function TradeOf(orders: map<Id, BrokerOrder>, f: Fill): Trade {
    Trade(f, if f.orderId in orders then Some(TermsOf(orders[f.orderId])) else None)
  }

  function TradesOf(orders: map<Id, BrokerOrder>, ps: seq<(Fill, int)>): seq<Trade> {
    seq(|ps|, i requires 0 <= i < |ps| => TradeOf(orders, ps[i].0))
  }

  function FillOrderLe(a: (Fill, int), b: (Fill, int)): bool {
    a.0.createdAt < b.0.createdAt || (a.0.createdAt == b.0.createdAt && a.1 <= b.1)
  }

  const NoOrders := OrderBook(map[], map[])
  const NoMatches := MatchBook(map[], map[], map[])
  const NoCycles := CycleBook(map[], [])

  /** What the rows say, step by step. */
  function Derived(orderRows: seq<OrderRow>, fillRows: seq<FillRow>, now: int): Result<seq<ClosedOutcome>, ReviewFault> {
    match Fold(OrderStep(now), NoOrders, orderRows)
    case Err(e) => Err(e)
    case Ok(orders) =>
      match Fold(FillStep(now), [], fillRows)
      case Err(e) => Err(e)
      case Ok(fills) =>
        match Fold(MatchStep(orders.orders), NoMatches, ValuesOf(fills))
        case Err(e) => Err(e)
        case Ok(matched) =>
          if !Reconciled(orders, matched.byOrder) then Err(Unreconciled)
          else
            match Fold(TradeStep, NoCycles, TradesOf(orders.orders, Sort(FillOrderLe, ValuesOf(fills))))
            case Err(e) => Err(e)
            case Ok(book) => Ok(book.done)
  }

  // ---- the loops ----------------------------------------------------------------------------

  method TakeOrders(rows: seq<OrderRow>, now: int) returns (r: Result<OrderBook, ReviewFault>)
    ensures r == Fold(OrderStep(now), NoOrders, rows)
  {
    var orders: map<Id, BrokerOrder>, filled: map<Id, int> := map[], map[];
    for i := 0 to |rows|
      invariant Fold(OrderStep(now), NoOrders, rows[..i]) == Ok(OrderBook(orders, filled))
    {
      var o := rows[i].order;
      FoldNext(OrderStep(now), NoOrders, rows, i);
      if !OrderVisible(rows[i], now) { continue; }
      if o.filled > o.quantity {
        FoldStops(OrderStep(now), NoOrders, rows, i + 1);
        return Err(ImpossibleFilled);
      }
      if o.orderId in orders && TermsOf(orders[o.orderId]) != TermsOf(o) {
        FoldStops(OrderStep(now), NoOrders, rows, i + 1);
        return Err(InconsistentTerms);
      }
      orders := orders[o.orderId := o];
      filled := filled[o.orderId := if Recorded(filled, o.orderId) >= o.filled then Recorded(filled, o.orderId) else o.filled];
    }
    assert rows[..|rows|] == rows;
    return Ok(OrderBook(orders, filled));
  }

  method TakeFills(rows: seq<FillRow>, now: int) returns (r: Result<FillBook, ReviewFault>)
    ensures r == Fold(FillStep(now), [], rows)
  {
    var fills: FillBook := [];
    for i := 0 to |rows|
      invariant Fold(FillStep(now), [], rows[..i]) == Ok(fills)
    {
      var f := rows[i].fill;
      FoldNext(FillStep(now), [], rows, i);
      if rows[i].at > now || f.createdAt > now { continue; }
      var previous := Get(fills, f.fillId);
      if previous.Some? {
        if previous.value.0 != f {
          FoldStops(FillStep(now), [], rows, i + 1);
          return Err(InconsistentFill);
        }
        fills := Put(fills, f.fillId, (f, if previous.value.1 <= rows[i].sequence then previous.value.1 else rows[i].sequence));
      } else {
        fills := Put(fills, f.fillId, (f, rows[i].sequence));
      }
    }
    assert rows[..|rows|] == rows;
    return Ok(fills);
  }

  method MatchFills(orders: map<Id, BrokerOrder>, ps: seq<(Fill, int)>) returns (r: Result<MatchBook, ReviewFault>)
    ensures r == Fold(MatchStep(orders), NoMatches, ps)
  {
    var b := NoMatches;
    for i := 0 to |ps|
      invariant Fold(MatchStep(orders), NoMatches, ps[..i]) == Ok(b)
    {
      FoldNext(MatchStep(orders), NoMatches, ps, i);
      var next := TakeMatch(orders, b, ps[i].0);
      if next.Err? {
        FoldStops(MatchStep(orders), NoMatches, ps, i + 1);
        return Err(next.error);
      }
      b := next.value;
    }
    assert ps[..|ps|] == ps;
    return Ok(b);
  }

  method RunCycles(orders: map<Id, BrokerOrder>, ps: seq<(Fill, int)>) returns (r: Result<CycleBook, ReviewFault>)
    ensures r == Fold(TradeStep, NoCycles, TradesOf(orders, ps))
  {
    ghost var trades := TradesOf(orders, ps);
    var b := NoCycles;
    for i := 0 to |ps|
      invariant Fold(TradeStep, NoCycles, trades[..i]) == Ok(b)
    {
      FoldNext(TradeStep, NoCycles, trades, i);
      var next := TakeTrade(b, TradeOf(orders, ps[i].0));
      if next.Err? {
        FoldStops(TradeStep, NoCycles, trades, i + 1);
        return Err(next.error);
      }
      b := next.value;
    }
    assert trades[..|ps|] == trades;
    return Ok(b);
  }

  method Derive(orderRows: seq<OrderRow>, fillRows: seq<FillRow>, now: int) returns (r: Result<seq<ClosedOutcome>, ReviewFault>)
    ensures r == Derived(orderRows, fillRows, now)
  {
    var orders := TakeOrders(orderRows, now);
    if orders.Err? { return Err(orders.error); }
    var fills := TakeFills(fillRows, now);
    if fills.Err? { return Err(fills.error); }
    var matched := MatchFills(orders.value.orders, ValuesOf(fills.value));
    if matched.Err? { return Err(matched.error); }
    if !Reconciled(orders.value, matched.value.byOrder) { return Err(Unreconciled); }
    var book := RunCycles(orders.value.orders, Sort(FillOrderLe, ValuesOf(fills.value)));
    return match book case Err(e) => Err(e) case Ok(b) => Ok(b.done);
  }
}
