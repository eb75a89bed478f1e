/** What every operation of the shadow ledger keeps. `listing` says which contract an instrument
    id stands for; the ledger checks that only for quotes, so callers must respect it. */
module LedgerInvariant {
  import opened Dicts
  import opened Domain
  import opened FillModels
  import opened LedgerState

  type Listing = map<Id, Contract>

  ghost predicate Listed(listing: Listing, c: Contract) {
    c.instrument in listing && listing[c.instrument] == c
  }

  ghost predicate OrderOk(cfg: Config, listing: Listing, id: Id, o: LedgerOrder, now: Instant) {
    var p := o.published;
    && p.orderId == id && p.intentId == id && o.command.orderIntentId == id
    && p.environment == cfg.environment && o.command.environment == cfg.environment
    && o.command.namespace == cfg.namespace
    && o.command.side == p.side && o.command.quantity == p.quantity && o.command.limit == p.limit
    && Listed(listing, p.contract) && o.command.instrument == p.contract.instrument
    && 0 <= p.filled <= p.quantity
    && (IsOpen(p.state) || IsTerminal(p.state))
    && (IsOpen(p.state) ==> p.filled < p.quantity)
    && (p.state.Filled? ==> p.filled == p.quantity)
    && (p.state.Rejected? ==> p.filled == 0)
    && p.submittedAt.Some? && NotBefore(now, p.submittedAt.value)
    && p.createdAt == p.submittedAt.value.t
  }

  ghost predicate OrdersOk(cfg: Config, listing: Listing, d: Dict<Id, LedgerOrder>, now: Instant) {
    Distinct(d) && forall i :: 0 <= i < |d| ==> OrderOk(cfg, listing, d[i].0, d[i].1, now)
  }

  ghost predicate PositionOk(cfg: Config, listing: Listing, id: Id, p: Position) {
    && p.contract.instrument == id && Listed(listing, p.contract)
    && p.quantity > 0 && p.average > 0.0 && p.environment == cfg.environment
  }

  ghost predicate PositionsOk(cfg: Config, listing: Listing, d: Dict<Id, Position>) {
    Distinct(d) && forall i :: 0 <= i < |d| ==> PositionOk(cfg, listing, d[i].0, d[i].1)
  }

  /** Working sells never promise more of an instrument than is owned. */
  ghost predicate Covered(s: Ledger) {
    forall i: Id :: AvailableQuantity(s, i) >= 0
  }

  function PositionPnl(p: Position): real { p.realized }
  function Same(r: real): real { r }

  function DepositTotal(ds: seq<Deposit>): real {
    if ds == [] then 0.0 else DepositTotal(ds[..|ds| - 1]) + ds[|ds| - 1].amount
  }

  /** Cash plus open cost is what was put in plus what was realized, and what was realized is
      what closed positions and open positions realized. */
  ghost predicate BookIdentity(cfg: Config, s: Ledger) {
    && s.cash + Sum(Cost, s.positions) == cfg.initialCash + DepositTotal(s.deposits) + s.realized
    && s.realized == Sum(Same, s.closed) + Sum(PositionPnl, s.positions)
  }

  ghost predicate RefsOk(listing: Listing, s: Ledger, now: Instant) {
    && (forall k :: k in s.orderByKey ==> Has(s.orders, s.orderByKey[k]))
    && (forall i :: 0 <= i < |s.fills| ==> Has(s.orders, s.fills[i].orderId))
    && Distinct(s.quotes) && Distinct(s.proposals)
    && (forall i :: 0 <= i < |s.quotes| ==>
          && s.quotes[i].0 == s.quotes[i].1.contract.instrument && Listed(listing, s.quotes[i].1.contract)
          && s.quotes[i].1.observedAt <= now.t && s.quotes[i].1.effectiveAt <= now.t)
    && (forall i :: 0 <= i < |s.proposals| ==> s.proposals[i].0 == s.proposals[i].1.proposalId)
  }

  ghost predicate Inv(cfg: Config, listing: Listing, s: Ledger, now: Instant) {
    && OrdersOk(cfg, listing, s.orders, now)
    && PositionsOk(cfg, listing, s.positions)
    && ReservedBuyingPower(s) <= s.cash
    && Covered(s)
    && BookIdentity(cfg, s)
    && RefsOk(listing, s, now)
  }

  lemma InvLater(cfg: Config, listing: Listing, s: Ledger, now: Instant, later: Instant)
    requires Inv(cfg, listing, s, now) && NotBefore(later, now)
    ensures Inv(cfg, listing, s, later)
  {
  }

  lemma FreshInv(cfg: Config, listing: Listing, now: Instant)
    ensures Inv(cfg, listing, Fresh(cfg), now)
  {
  }

  // ---- consequences -------------------------------------------------------------------------

  lemma {:induction false} OrderFacts(cfg: Config, listing: Listing, d: Dict<Id, LedgerOrder>, id: Id, now: Instant)
    requires OrdersOk(cfg, listing, d, now)
    ensures Has(d, id) ==> OrderOk(cfg, listing, id, Get(d, id).value, now)
  {
    GetAt(d, id);
  }

  lemma {:induction false} PositionFacts(cfg: Config, listing: Listing, d: Dict<Id, Position>, id: Id)
    requires PositionsOk(cfg, listing, d)
    ensures Has(d, id) ==> PositionOk(cfg, listing, id, Get(d, id).value)
  {
    GetAt(d, id);
  }

  lemma ReserveNonNegative(cfg: Config, listing: Listing, o: LedgerOrder, id: Id, now: Instant, i: Id)
    requires OrderOk(cfg, listing, id, o, now)
    ensures BuyReserve(o) >= 0.0 && SellReserve(i)(o) >= 0
  {
    var p := o.published;
    ValueSign(p.limit, p.quantity - p.filled, p.contract.multiplier);
  }

  /** Cash, buying power and every instrument's unreserved quantity are non-negative. */
  lemma {:induction false} NothingNegative(cfg: Config, listing: Listing, s: Ledger, now: Instant, i: Id)
    requires Inv(cfg, listing, s, now)
    ensures s.cash >= BuyingPower(s) >= 0.0 && AvailableQuantity(s, i) >= 0
    ensures At(BuyReserve, Get(s.orders, i)) <= s.cash
  {
    forall k | 0 <= k < |s.orders| ensures BuyReserve(s.orders[k].1) >= 0.0 {
      ReserveNonNegative(cfg, listing, s.orders[k].1, s.orders[k].0, now, i);
    }
    SumAtLeast(BuyReserve, s.orders, i);
  }

  // ---- positions ----------------------------------------------------------------------------

  lemma {:induction false} PutPosition(cfg: Config, listing: Listing, d: Dict<Id, Position>, id: Id, p: Position)
    requires PositionsOk(cfg, listing, d) && PositionOk(cfg, listing, id, p)
    ensures PositionsOk(cfg, listing, Put(d, id, p))
    ensures forall j: Id :: Get(Put(d, id, p), j) == if j == id then Some(p) else Get(d, j)
    ensures Sum(Cost, Put(d, id, p)) == Sum(Cost, d) - At(Cost, Get(d, id)) + Cost(p)
    ensures Sum(PositionPnl, Put(d, id, p)) == Sum(PositionPnl, d) - At(PositionPnl, Get(d, id)) + p.realized
  {
    PutShape(d, id, p);
    SumPut(Cost, d, id, p);
    SumPut(PositionPnl, d, id, p);
    forall j: Id ensures Get(Put(d, id, p), j) == if j == id then Some(p) else Get(d, j) { GetPut(d, id, p, j); }
  }

  lemma {:induction false} DelPosition(cfg: Config, listing: Listing, d: Dict<Id, Position>, id: Id)
    requires PositionsOk(cfg, listing, d)
    ensures PositionsOk(cfg, listing, Del(d, id))
    ensures forall j: Id :: Get(Del(d, id), j) == if j == id then None else Get(d, j)
    ensures Sum(Cost, Del(d, id)) == Sum(Cost, d) - At(Cost, Get(d, id))
    ensures Sum(PositionPnl, Del(d, id)) == Sum(PositionPnl, d) - At(PositionPnl, Get(d, id))
  {
    DelShape(d, id);
    SumDel(Cost, d, id);
    SumDel(PositionPnl, d, id);
  }

  lemma MarkKeeps(cfg: Config, listing: Listing, s: Ledger, q: Quote)
    requires PositionsOk(cfg, listing, s.positions)
    ensures var t := MarkPosition(s, q);
      && PositionsOk(cfg, listing, t.positions)
      && t == s.(positions := t.positions)
      && (forall j: Id :: Owned(t, j) == Owned(s, j))
      && KeysOf(t.positions) == KeysOf(s.positions)
      && Sum(Cost, t.positions) == Sum(Cost, s.positions)
      && Sum(PositionPnl, t.positions) == Sum(PositionPnl, s.positions)
  {
    var id := q.contract.instrument;
    PositionFacts(cfg, listing, s.positions, id);
    if Has(s.positions, id) {
      var p := Get(s.positions, id).value;
      PutPosition(cfg, listing, s.positions, id, Marked(p, q));
      PutShape(s.positions, id, Marked(p, q));
    }
  }

  lemma AverageUpCost(average: real, held: int, price: real, quantity: int, m: int)
    requires held > 0 && quantity > 0 && average > 0.0 && price > 0.0
    ensures AverageUp(average, held, price, quantity) > 0.0
    ensures Value(AverageUp(average, held, price, quantity), held + quantity, m) == Value(average, held, m) + Value(price, quantity, m)
  {
    var total := average * held as real + price * quantity as real;
    var n := (held + quantity) as real;
    assert average * held as real > 0.0 && price * quantity as real > 0.0;
    assert AverageUp(average, held, price, quantity) == total / n;
    DivideBack(total, n);
    assert total / n * n * m as real == total * m as real;
  }

  lemma DivideBack(x: real, n: real)
    requires x > 0.0 && n > 0.0
    ensures x / n * n == x && x / n > 0.0
  {
  }

  /** A buy fill adds its cost and its quantity to the instrument's position. */
  lemma EntryEffect(cfg: Config, listing: Listing, s: Ledger, c: Command, contract: Contract, q: Quote,
                    quantity: int, price: real, now: Instant)
    requires PositionsOk(cfg, listing, s.positions) && Listed(listing, contract)
    requires q.contract.instrument == contract.instrument && quantity > 0 && price > 0.0
    ensures var t := ApplyEntry(cfg, s, c, contract, q, quantity, price, now);
      && PositionsOk(cfg, listing, t.positions)
      && t == s.(positions := t.positions)
      && (forall j: Id :: Owned(t, j) == Owned(s, j) + if j == contract.instrument then quantity else 0)
      && Sum(Cost, t.positions) == Sum(Cost, s.positions) + Value(price, quantity, contract.multiplier)
      && Sum(PositionPnl, t.positions) == Sum(PositionPnl, s.positions)
  {
    var id := contract.instrument;
    PositionFacts(cfg, listing, s.positions, id);
    match Get(s.positions, id)
    case None =>
      PutPosition(cfg, listing, s.positions, id, Opened(cfg, s, c, contract, q, quantity, price, now));
    case Some(p) =>
      AverageUpCost(p.average, p.quantity, price, quantity, contract.multiplier);
      var grown := p.(quantity := p.quantity + quantity,
                      average := AverageUp(p.average, p.quantity, price, quantity), bid := q.bid, ask := q.ask);
      PutPosition(cfg, listing, s.positions, id, grown);
      MarkKeeps(cfg, listing, s.(positions := Put(s.positions, id, grown)), q);
  }

  lemma {:induction false} CloseEffect(cfg: Config, listing: Listing, s: Ledger, id: Id, pnl: real)
    requires PositionsOk(cfg, listing, s.positions) && Has(s.positions, id)
    ensures var p := Get(s.positions, id).value; var t := ClosePosition(s, id, p, pnl);
      && PositionsOk(cfg, listing, t.positions)
      && t == s.(positions := t.positions, realized := s.realized + pnl, closed := t.closed)
      && (forall j: Id :: Owned(t, j) == if j == id then 0 else Owned(s, j))
      && Sum(Cost, t.positions) == Sum(Cost, s.positions) - Cost(p)
      && Sum(Same, t.closed) + Sum(PositionPnl, t.positions) == Sum(Same, s.closed) + Sum(PositionPnl, s.positions) + pnl
  {
    var p := Get(s.positions, id).value;
    DelPosition(cfg, listing, s.positions, id);
    SumPut(Same, s.closed, id, ClosedSoFar(s, id) + p.realized + pnl);
  }

  lemma Distribute(price: real, average: real, n: int, m: int)
    ensures Unrealized(price, average, n, m) == Value(price, n, m) - Value(average, n, m)
  {
    assert (price - average) * n as real == price * n as real - average * n as real;
  }

  lemma SplitValue(average: real, n: int, k: int, m: int)
    ensures Value(average, n - k, m) == Value(average, n, m) - Value(average, k, m)
  {
    assert average * (n - k) as real == average * n as real - average * k as real;
  }

  lemma ValueSign(price: real, n: int, m: int)
    requires price >= 0.0 && n >= 0 && m >= 0
    ensures Value(price, n, m) >= 0.0
  {
    assert price * n as real >= 0.0;
  }

  lemma ValueMonotone(a: real, b: real, n: int, m: int)
    requires a <= b && n >= 0 && m >= 0
    ensures Value(a, n, m) <= Value(b, n, m)
  {
    assert (b - a) * n as real >= 0.0;
    assert (b - a) * n as real * m as real >= 0.0;
    assert (b - a) * n as real * m as real == Value(b, n, m) - Value(a, n, m);
  }

  /** What a sell fill of `value` does to the positions: it releases cost, and books the rest of
      its value as profit or loss. */
  ghost predicate Released(cfg: Config, listing: Listing, s: Ledger, t: Ledger, instrument: Id, quantity: int, value: real) {
    && PositionsOk(cfg, listing, t.positions)
    && t == s.(positions := t.positions, realized := t.realized, closed := t.closed)
    && (forall j: Id :: Owned(t, j) == Owned(s, j) - if j == instrument then quantity else 0)
    && Sum(Cost, t.positions) <= Sum(Cost, s.positions)
    && Sum(Cost, t.positions) - t.realized == Sum(Cost, s.positions) - s.realized - value
    && Sum(Same, t.closed) + Sum(PositionPnl, t.positions) - t.realized
       == Sum(Same, s.closed) + Sum(PositionPnl, s.positions) - s.realized
  }

  lemma {:induction false} ExitAll(cfg: Config, listing: Listing, s: Ledger, id: Id, price: real)
    requires PositionsOk(cfg, listing, s.positions) && Has(s.positions, id)
    ensures var p := Get(s.positions, id).value;
      Released(cfg, listing, s, ClosePosition(s, id, p, Unrealized(price, p.average, p.quantity, p.contract.multiplier)),
               id, p.quantity, Value(price, p.quantity, p.contract.multiplier))
  {
    PositionFacts(cfg, listing, s.positions, id);
    var p := Get(s.positions, id).value;
    Distribute(price, p.average, p.quantity, p.contract.multiplier);
    ValueSign(p.average, p.quantity, p.contract.multiplier);
    CloseEffect(cfg, listing, s, id, Unrealized(price, p.average, p.quantity, p.contract.multiplier));
  }

  lemma {:induction false} ExitSome(cfg: Config, listing: Listing, s: Ledger, id: Id, quantity: int, price: real)
    requires PositionsOk(cfg, listing, s.positions) && Has(s.positions, id)
    requires 0 < quantity < Get(s.positions, id).value.quantity
    ensures var p := Get(s.positions, id).value; var pnl := Unrealized(price, p.average, quantity, p.contract.multiplier);
      Released(cfg, listing, s,
               s.(realized := s.realized + pnl,
                  positions := Put(s.positions, id, p.(quantity := p.quantity - quantity, realized := p.realized + pnl))),
               id, quantity, Value(price, quantity, p.contract.multiplier))
  {
    PositionFacts(cfg, listing, s.positions, id);
    var p := Get(s.positions, id).value;
    var pnl := Unrealized(price, p.average, quantity, p.contract.multiplier);
    Distribute(price, p.average, quantity, p.contract.multiplier);
    SplitValue(p.average, p.quantity, quantity, p.contract.multiplier);
    ValueSign(p.average, quantity, p.contract.multiplier);
    PutPosition(cfg, listing, s.positions, id, p.(quantity := p.quantity - quantity, realized := p.realized + pnl));
  }

  /** A sell fill within the position releases its average cost and books the difference. */
  lemma ExitEffect(cfg: Config, listing: Listing, s: Ledger, contract: Contract, quantity: int, price: real)
    requires PositionsOk(cfg, listing, s.positions) && Listed(listing, contract)
    requires 0 < quantity <= Owned(s, contract.instrument)
    ensures var r := ApplyExit(s, contract, quantity, price);
      r.Some? && Released(cfg, listing, s, r.value, contract.instrument, quantity, Value(price, quantity, contract.multiplier))
  {
    PositionFacts(cfg, listing, s.positions, contract.instrument);
    if Get(s.positions, contract.instrument).value.quantity == quantity {
      ExitAll(cfg, listing, s, contract.instrument, price);
    } else {
      ExitSome(cfg, listing, s, contract.instrument, quantity, price);
    }
  }

  // ---- orders -------------------------------------------------------------------------------

  /** Replacing one order changes the two reservation sums by that order alone. */
  lemma {:induction false} PutOrder(cfg: Config, listing: Listing, d: Dict<Id, LedgerOrder>, id: Id, o: LedgerOrder, now: Instant)
    requires OrdersOk(cfg, listing, d, now) && OrderOk(cfg, listing, id, o, now)
    ensures OrdersOk(cfg, listing, Put(d, id, o), now)
    ensures forall j: Id :: Get(Put(d, id, o), j) == if j == id then Some(o) else Get(d, j)
    ensures Sum(BuyReserve, Put(d, id, o)) == Sum(BuyReserve, d) - At(BuyReserve, Get(d, id)) + BuyReserve(o)
    ensures forall i: Id :: Count(SellReserve(i), Put(d, id, o)) == Count(SellReserve(i), d) - CountAt(SellReserve(i), Get(d, id)) + SellReserve(i)(o)
    ensures At(BuyReserve, Get(d, id)) >= 0.0
    ensures forall i: Id :: CountAt(SellReserve(i), Get(d, id)) >= 0
  {
    PutShape(d, id, o);
    SumPut(BuyReserve, d, id, o);
    forall i: Id ensures Count(SellReserve(i), Put(d, id, o)) == Count(SellReserve(i), d) - CountAt(SellReserve(i), Get(d, id)) + SellReserve(i)(o) {
      CountPut(SellReserve(i), d, id, o);
    }
    forall j: Id ensures Get(Put(d, id, o), j) == if j == id then Some(o) else Get(d, j) { GetPut(d, id, o, j); }
    OrderFacts(cfg, listing, d, id, now);
    if Has(d, id) {
      forall i: Id ensures CountAt(SellReserve(i), Get(d, id)) >= 0 {
        ReserveNonNegative(cfg, listing, Get(d, id).value, id, now, i);
      }
      ReserveNonNegative(cfg, listing, Get(d, id).value, id, now, 0);
    }
  }

  // ---- one fill -----------------------------------------------------------------------------

  ghost predicate Workable(cfg: Config, listing: Listing, s: Ledger, o: LedgerOrder, q: Quote, d: FillDecision, now: Instant) {
    && Inv(cfg, listing, s, now)
    && Get(s.orders, o.published.orderId) == Some(o) && IsOpen(o.published.state)
    && o.published.contract.instrument == q.contract.instrument
    && d.ShouldFill() && Sound(o.published, o.published.quantity - o.published.filled, d)
  }

  /** A fill moves a buy's reservation down by its quantity at the limit price, and a sell's by
      its quantity. */
  lemma RemainderReserves(o: LedgerOrder, quantity: int, price: real, i: Id)
    requires IsOpen(o.published.state) && 0 < quantity <= o.published.quantity - o.published.filled
    ensures var n := o.(published := FilledBy(o.published, quantity, price)); var p := o.published;
      && (p.side.BuyToOpen? ==> BuyReserve(n) == BuyReserve(o) - Value(p.limit, quantity, p.contract.multiplier) >= 0.0)
      && (p.side.SellToClose? ==> BuyReserve(n) == 0.0 == BuyReserve(o))
      && SellReserve(i)(n) == SellReserve(i)(o) - if p.side.SellToClose? && p.contract.instrument == i then quantity else 0
  {
    var p := o.published;
    SplitValue(p.limit, p.quantity - p.filled, quantity, p.contract.multiplier);
    ValueSign(p.limit, p.quantity - p.filled - quantity, p.contract.multiplier);
  }

  /** The order side of a fill, given what its book side did. */
  lemma SettleOrder(cfg: Config, listing: Listing, s: Ledger, t: Ledger, o: LedgerOrder, quantity: int, price: real, now: Instant)
    requires OrdersOk(cfg, listing, s.orders, now) && Covered(s)
    requires Get(s.orders, o.published.orderId) == Some(o) && IsOpen(o.published.state)
    requires 0 < quantity <= o.published.quantity - o.published.filled
    requires t.orders == s.orders
    requires var p := o.published; forall j: Id :: Owned(t, j) == Owned(s, j) + if j == p.contract.instrument then
               (if p.side.BuyToOpen? then quantity else -quantity) else 0
    ensures var p := o.published; var u := WithPublished(t, o, FilledBy(p, quantity, price));
      && OrdersOk(cfg, listing, u.orders, now) && Covered(u)
      && (forall j: Id :: Has(s.orders, j) ==> Has(u.orders, j))
      && ReservedBuyingPower(u) == ReservedBuyingPower(s) - if p.side.BuyToOpen? then Value(p.limit, quantity, p.contract.multiplier) else 0.0
  {
    var p := o.published;
    OrderFacts(cfg, listing, s.orders, p.orderId, now);
    PutOrder(cfg, listing, s.orders, p.orderId, o.(published := FilledBy(p, quantity, price)), now);
    var u := WithPublished(t, o, FilledBy(p, quantity, price));
    RemainderReserves(o, quantity, price, 0);
    forall i: Id ensures AvailableQuantity(u, i) >= 0 {
      assert AvailableQuantity(s, i) >= 0;
      RemainderReserves(o, quantity, price, i);
    }
  }

  lemma SameBooks(s: Ledger, t: Ledger)
    requires s.orders == t.orders && s.positions == t.positions
    ensures Covered(s) <==> Covered(t)
  {
    assert forall i: Id :: AvailableQuantity(s, i) == AvailableQuantity(t, i);
  }

  /** A buy fill costs no more than the reservation it releases, which is within the cash. */
  lemma BuyAffordable(cfg: Config, listing: Listing, s: Ledger, o: LedgerOrder, n: int, price: real, now: Instant)
    requires Inv(cfg, listing, s, now)
    requires Get(s.orders, o.published.orderId) == Some(o) && IsOpen(o.published.state) && o.published.side.BuyToOpen?
    requires 0 < n <= o.published.quantity - o.published.filled && price <= o.published.limit
    ensures var p := o.published;
      Notional(p, n, price) <= Value(p.limit, n, p.contract.multiplier) <= s.cash
  {
    var p := o.published;
    NothingNegative(cfg, listing, s, now, p.orderId);
    RemainderReserves(o, n, price, 0);
    ValueMonotone(price, p.limit, n, p.contract.multiplier);
  }

  /** A buy fill is affordable and pays for itself out of its own reservation. */
  lemma BuyFill(cfg: Config, listing: Listing, s: Ledger, o: LedgerOrder, q: Quote, d: FillDecision, now: Instant)
    requires Workable(cfg, listing, s, o, q, d, now) && o.published.side.BuyToOpen?
    ensures BookFill(cfg, s, o, q, d.quantity, d.price.value, now).Ok?
    ensures var t := ApplyFill(cfg, s, o, q, d, now).ledger;
      Inv(cfg, listing, t, now) && OpenOptionRisk(t) <= OpenOptionRisk(s)
  {
    var p, n, price := o.published, d.quantity, d.price.value;
    OrderFacts(cfg, listing, s.orders, p.orderId, now);
    BuyAffordable(cfg, listing, s, o, n, price, now);
    var paid := s.(cash := s.cash - Notional(p, n, price));
    EntryEffect(cfg, listing, paid, o.command, p.contract, q, n, price, now);
    var t := ApplyEntry(cfg, paid, o.command, p.contract, q, n, price, now);
    BuySettles(cfg, listing, s, t, o, n, price, now);
    BuyBooked(cfg, s, o, q, d, now, t);
    FillRecorded(cfg, listing, WithPublished(t, o, FilledBy(p, n, price)), ApplyFill(cfg, s, o, q, d, now).ledger,
                 ApplyFill(cfg, s, o, q, d, now).result.value, now);
  }

  /** The books of a buy, given what its entry did to the positions. */
  lemma BuySettles(cfg: Config, listing: Listing, s: Ledger, t: Ledger, o: LedgerOrder, n: int, price: real, now: Instant)
    requires Inv(cfg, listing, s, now) && Get(s.orders, o.published.orderId) == Some(o)
    requires IsOpen(o.published.state) && o.published.side.BuyToOpen?
    requires 0 < n <= o.published.quantity - o.published.filled && price <= o.published.limit
    requires t == s.(cash := s.cash - Notional(o.published, n, price), positions := t.positions) && PositionsOk(cfg, listing, t.positions)
    requires forall j: Id :: Owned(t, j) == Owned(s, j) + if j == o.published.contract.instrument then n else 0
    requires Sum(Cost, t.positions) == Sum(Cost, s.positions) + Notional(o.published, n, price)
    requires Sum(PositionPnl, t.positions) == Sum(PositionPnl, s.positions)
    ensures var u := WithPublished(t, o, FilledBy(o.published, n, price));
      Inv(cfg, listing, u, now) && OpenOptionRisk(u) <= OpenOptionRisk(s) && Has(u.orders, o.published.orderId)
  {
    BuyAffordable(cfg, listing, s, o, n, price, now);
    SettleOrder(cfg, listing, s, t, o, n, price, now);
  }

  /** The record of a fill changes nothing in the books. */
  lemma FillRecorded(cfg: Config, listing: Listing, u: Ledger, v: Ledger, f: Fill, now: Instant)
    requires Inv(cfg, listing, u, now) && Has(u.orders, f.orderId) && v == u.(fills := u.fills + [f], entries := v.entries)
    ensures Inv(cfg, listing, v, now) && OpenOptionRisk(v) == OpenOptionRisk(u)
  {
    SameBooks(u, v);
  }

  lemma BuyBooked(cfg: Config, s: Ledger, o: LedgerOrder, q: Quote, d: FillDecision, now: Instant, t: Ledger)
    requires d.ShouldFill() && o.published.side.BuyToOpen?
    requires FillGuard(o.published, d.quantity, d.price.value).None?
    requires Notional(o.published, d.quantity, d.price.value) <= s.cash
    requires t == ApplyEntry(cfg, s.(cash := s.cash - Notional(o.published, d.quantity, d.price.value)), o.command,
                             o.published.contract, q, d.quantity, d.price.value, now)
    ensures BookFill(cfg, s, o, q, d.quantity, d.price.value, now) == Ok(AddEntry(t, now.day, o.published.orderId))
    ensures ApplyFill(cfg, s, o, q, d, now).result.Ok?
    ensures var r := ApplyFill(cfg, s, o, q, d, now); var u := WithPublished(t, o, FilledBy(o.published, d.quantity, d.price.value));
      r.ledger == u.(fills := t.fills + [r.result.value], entries := r.ledger.entries)
      && r.result.value.orderId == o.published.orderId
  {
  }

  /** A sell fill is covered by what its order reserved. */
  lemma SellFill(cfg: Config, listing: Listing, s: Ledger, o: LedgerOrder, q: Quote, d: FillDecision, now: Instant)
    requires Workable(cfg, listing, s, o, q, d, now) && o.published.side.SellToClose?
    ensures BookFill(cfg, s, o, q, d.quantity, d.price.value, now).Ok?
    ensures var t := ApplyFill(cfg, s, o, q, d, now).ledger;
      Inv(cfg, listing, t, now) && OpenOptionRisk(t) <= OpenOptionRisk(s)
  {
    var p, n, price := o.published, d.quantity, d.price.value;
    OrderFacts(cfg, listing, s.orders, p.orderId, now);
    SellCovered(cfg, listing, s, o, now);
    ExitEffect(cfg, listing, s, p.contract, n, price);
    var t := ApplyExit(s, p.contract, n, price).value;
    SettleOrder(cfg, listing, s, t, o, n, price, now);
    ValueSign(price, n, p.contract.multiplier);
    SameBooks(WithPublished(t, o, FilledBy(p, n, price)), ApplyFill(cfg, s, o, q, d, now).ledger);
  }

  lemma SellCovered(cfg: Config, listing: Listing, s: Ledger, o: LedgerOrder, now: Instant)
    requires OrdersOk(cfg, listing, s.orders, now) && Covered(s)
    requires Get(s.orders, o.published.orderId) == Some(o) && IsOpen(o.published.state) && o.published.side.SellToClose?
    ensures o.published.quantity - o.published.filled <= Owned(s, o.published.contract.instrument)
  {
    var at := o.published.contract.instrument;
    forall k | 0 <= k < |s.orders| ensures SellReserve(at)(s.orders[k].1) >= 0 {
      ReserveNonNegative(cfg, listing, s.orders[k].1, s.orders[k].0, now, at);
    }
    CountAtLeast(SellReserve(at), s.orders, o.published.orderId);
    assert AvailableQuantity(s, at) >= 0;
  }

  /** A sound decision on a working order passes every guard, keeps the invariant and never adds
      to the open option risk. */
  lemma FillKeeps(cfg: Config, listing: Listing, s: Ledger, o: LedgerOrder, q: Quote, d: FillDecision, now: Instant)
    requires Workable(cfg, listing, s, o, q, d, now)
    ensures ApplyFill(cfg, s, o, q, d, now).result.Ok?
    ensures var t := ApplyFill(cfg, s, o, q, d, now).ledger;
      Inv(cfg, listing, t, now) && OpenOptionRisk(t) <= OpenOptionRisk(s)
  {
    if o.published.side.BuyToOpen? { BuyFill(cfg, listing, s, o, q, d, now); }
    else { SellFill(cfg, listing, s, o, q, d, now); }
  }
}
