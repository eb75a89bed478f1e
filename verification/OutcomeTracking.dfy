/** While no position expires, the flat-to-flat cycles recomputed from the ledger's fills stay in
    step with its incremental average-cost books. */
module OutcomeTracking {
  import opened Dicts
  import opened Domain
  import opened FillModels
  import opened Folds
  import opened LedgerState
  import opened LedgerInvariant
  import opened LedgerRuns
  import opened Outcomes

  // ---- the fills of a ledger as trades ------------------------------------------------------

  function LedgerTerms(d: Dict<Id, LedgerOrder>, id: Id): Option<Terms> {
    match Get(d, id) case None => None case Some(o) => Some(TermsOf(o.published))
  }

  function LedgerTrades(d: Dict<Id, LedgerOrder>, fills: seq<Fill>): seq<Trade> {
    seq(|fills|, i requires 0 <= i < |fills| => Trade(fills[i], LedgerTerms(d, fills[i].orderId)))
  }

  function BookOf(s: Ledger): Result<CycleBook, ReviewFault> {
    Fold(TradeStep, NoCycles, LedgerTrades(s.orders, s.fills))
  }

  function QuantityFor(fills: seq<Fill>, id: Id): int {
    if fills == [] then 0
    else QuantityFor(fills[..|fills| - 1], id) + if fills[|fills| - 1].orderId == id then fills[|fills| - 1].quantity else 0
  }

  ghost predicate FillOk(d: Dict<Id, LedgerOrder>, k: int, f: Fill, now: Instant) {
    && f.fillId == k && f.quantity > 0 && f.price > 0.0 && f.createdAt <= now.t
    && Has(d, f.orderId) && Get(d, f.orderId).value.published.createdAt <= f.createdAt
  }

  /** Every fill is numbered, positive, in time order, belongs to an earlier order, and the fills
      of each order add up to its filled quantity. */
  ghost predicate FillsOk(d: Dict<Id, LedgerOrder>, fills: seq<Fill>, now: Instant) {
    && (forall k :: 0 <= k < |fills| ==> FillOk(d, k, fills[k], now))
    && (forall j, k :: 0 <= j < k < |fills| ==> fills[j].createdAt <= fills[k].createdAt)
    && (forall id: Id :: QuantityFor(fills, id) == match Get(d, id) case None => 0 case Some(o) => o.published.filled)
  }

  // ---- what cycles and books share ----------------------------------------------------------

  function CostLessPnl(p: Position): real {
    Cost(p) - p.realized
  }

  function CycleValue(c: Cycle): real {
    TotalValue(c.entries, c.contract.multiplier) - TotalValue(c.exits, c.contract.multiplier)
  }

  ghost predicate AllPositive(fs: seq<Fill>) {
    forall i :: 0 <= i < |fs| ==> fs[i].quantity > 0 && fs[i].price > 0.0
  }

  ghost predicate CycleOk(c: Cycle, now: int) {
    && c.entries != [] && AllPositive(c.entries) && AllPositive(c.exits)
    && c.balance == TotalQuantity(c.entries) - TotalQuantity(c.exits) > 0
    && c.entries[0].createdAt <= now
  }

  /** What the outcome record itself demands. */
  ghost predicate OutcomeOk(o: ClosedOutcome) {
    o.bought == o.sold > 0 && o.cost > 0.0 && o.proceeds > 0.0 && o.pnl == o.proceeds - o.cost && o.hold >= 0
  }

  function DonePnl(done: seq<ClosedOutcome>, i: Id): real {
    if done == [] then 0.0
    else
      var o := done[|done| - 1];
      DonePnl(done[..|done| - 1], i) + if o.contract.instrument == i then o.pnl else 0.0
  }

  /** The open cycle of an instrument carries its position's quantity and cost less realized
      result; an instrument without position has no open cycle. */
  ghost predicate InStep(s: Ledger, b: CycleBook, now: int, i: Id) {
    && (Get(s.positions, i).None? ==> i !in b.open)
    && (Get(s.positions, i).Some? ==>
          var p := Get(s.positions, i).value;
          && i in b.open && CycleOk(b.open[i], now)
          && b.open[i].contract == p.contract && b.open[i].balance == p.quantity
          && CycleValue(b.open[i]) == CostLessPnl(p))
    && DonePnl(b.done, i) == ClosedSoFar(s, i)
  }

  ghost predicate Matches(s: Ledger, b: CycleBook, now: int) {
    && (forall i: Id :: InStep(s, b, now, i))
    && (forall k :: 0 <= k < |b.done| ==> OutcomeOk(b.done[k]))
  }

  ghost predicate Tracked(s: Ledger, now: Instant) {
    && FillsOk(s.orders, s.fills, now)
    && BookOf(s).Ok? && Matches(s, BookOf(s).value, now.t)
  }

  lemma TrackedLater(s: Ledger, now: Instant, later: Instant)
    requires Tracked(s, now) && NotBefore(later, now)
    ensures Tracked(s, later)
  {
    forall i: Id ensures InStep(s, BookOf(s).value, later.t, i) { assert InStep(s, BookOf(s).value, now.t, i); }
    forall k | 0 <= k < |s.fills| ensures FillOk(s.orders, k, s.fills[k], later) { assert FillOk(s.orders, k, s.fills[k], now); }
  }

  // ---- steps that make no fill --------------------------------------------------------------

  /** Orders keep their terms, their filled quantity and their time; new ones are unfilled. */
  ghost predicate KeepsOrders(d: Dict<Id, LedgerOrder>, e: Dict<Id, LedgerOrder>) {
    forall id: Id ::
      && (Has(d, id) ==> Has(e, id))
      && (Has(d, id) ==>
            var p, q := Get(d, id).value.published, Get(e, id).value.published;
            TermsOf(q) == TermsOf(p) && q.filled == p.filled && q.createdAt == p.createdAt)
      && (!Has(d, id) && Has(e, id) ==> Get(e, id).value.published.filled == 0)
  }

  /** Positions keep everything cycles see. */
  ghost predicate KeepsPositions(s: Ledger, t: Ledger) {
    && t.closed == s.closed
    && forall i: Id ::
      && (Has(s.positions, i) <==> Has(t.positions, i))
      && (Has(s.positions, i) ==>
            var p, q := Get(s.positions, i).value, Get(t.positions, i).value;
            q.contract == p.contract && q.quantity == p.quantity && CostLessPnl(q) == CostLessPnl(p))
  }

  lemma SameTrades(d: Dict<Id, LedgerOrder>, e: Dict<Id, LedgerOrder>, fills: seq<Fill>)
    requires forall k :: 0 <= k < |fills| ==> Has(d, fills[k].orderId)
    requires forall id: Id :: Has(d, id) ==> LedgerTerms(e, id) == LedgerTerms(d, id)
    ensures LedgerTrades(e, fills) == LedgerTrades(d, fills)
  {
    forall k | 0 <= k < |fills| ensures LedgerTrades(e, fills)[k] == LedgerTrades(d, fills)[k] {}
  }

  lemma NoFillTracks(s: Ledger, t: Ledger, now: Instant)
    requires Tracked(s, now)
    requires t.fills == s.fills && KeepsOrders(s.orders, t.orders) && KeepsPositions(s, t)
    ensures Tracked(t, now)
  {
    forall k | 0 <= k < |s.fills| ensures FillOk(t.orders, k, s.fills[k], now) { assert FillOk(s.orders, k, s.fills[k], now); }
    forall id: Id ensures LedgerTerms(t.orders, id) == LedgerTerms(s.orders, id) || !Has(s.orders, id) {}
    SameTrades(s.orders, t.orders, s.fills);
    forall i: Id ensures InStep(t, BookOf(s).value, now.t, i) { assert InStep(s, BookOf(s).value, now.t, i); }
  }

  // ---- one trade ----------------------------------------------------------------------------

  lemma {:induction false} TotalAppend(fs: seq<Fill>, f: Fill, m: int)
    ensures TotalValue(fs + [f], m) == TotalValue(fs, m) + Value(f.price, f.quantity, m)
    ensures TotalQuantity(fs + [f]) == TotalQuantity(fs) + f.quantity
  {
    assert (fs + [f])[..|fs|] == fs;
  }

  lemma {:induction false} TotalPositive(fs: seq<Fill>, m: int)
    requires AllPositive(fs) && m > 0
    ensures fs != [] ==> TotalValue(fs, m) > 0.0 && TotalQuantity(fs) > 0
    ensures fs == [] ==> TotalValue(fs, m) == 0.0 && TotalQuantity(fs) == 0
  {
    if fs != [] {
      var n := |fs| - 1;
      TotalPositive(fs[..n], m);
      ValuePositive(fs[n].price, fs[n].quantity, m);
    }
  }

  lemma ValuePositive(price: real, n: int, m: int)
    requires price > 0.0 && n > 0 && m > 0
    ensures Value(price, n, m) > 0.0
  {
    assert price * n as real > 0.0;
  }

  /** Buying extends the instrument's cycle, or opens one. */
  lemma BuyTrade(b: CycleBook, f: Fill, o: Terms, now: int)
    requires o.side.BuyToOpen? && f.quantity > 0 && f.price > 0.0 && f.createdAt <= now
    requires var i := o.contract.instrument; i in b.open ==> CycleOk(b.open[i], now) && b.open[i].contract == o.contract
    ensures var r := TakeTrade(b, Trade(f, Some(o))); var i := o.contract.instrument;
      && r.Ok? && r.value.done == b.done && i in r.value.open && r.value.open == b.open[i := r.value.open[i]]
      && CycleOk(r.value.open[i], now) && r.value.open[i].contract == o.contract
      && r.value.open[i].balance == (if i in b.open then b.open[i].balance else 0) + f.quantity
      && CycleValue(r.value.open[i]) == (if i in b.open then CycleValue(b.open[i]) else 0.0) + Value(f.price, f.quantity, o.contract.multiplier)
  {
    var c := CycleFor(b, o.contract);
    TotalAppend(c.entries, f, o.contract.multiplier);
  }

  /** Selling within the balance shortens the cycle, and completes it exactly when it is flat. */
  lemma SellTrade(b: CycleBook, f: Fill, o: Terms, now: int)
    requires o.side.SellToClose? && f.quantity > 0 && f.price > 0.0 && f.createdAt == now
    requires var i := o.contract.instrument; i in b.open && CycleOk(b.open[i], now) && b.open[i].contract == o.contract && f.quantity <= b.open[i].balance
    ensures var r := TakeTrade(b, Trade(f, Some(o))); var i := o.contract.instrument; var v := Value(f.price, f.quantity, o.contract.multiplier);
      && r.Ok?
      && (f.quantity < b.open[i].balance ==>
            && r.value.done == b.done && i in r.value.open && r.value.open == b.open[i := r.value.open[i]]
            && CycleOk(r.value.open[i], now) && r.value.open[i].contract == o.contract
            && r.value.open[i].balance == b.open[i].balance - f.quantity
            && CycleValue(r.value.open[i]) == CycleValue(b.open[i]) - v)
      && (f.quantity == b.open[i].balance ==>
            && r.value.open == b.open - {i} && |r.value.done| == |b.done| + 1 && r.value.done[..|b.done|] == b.done
            && var last := r.value.done[|b.done|];
               last.contract == o.contract && OutcomeOk(last) && last.pnl == v - CycleValue(b.open[i]))
  {
    var i := o.contract.instrument;
    var c := b.open[i];
    TotalAppend(c.exits, f, o.contract.multiplier);
    TotalPositive(c.entries, o.contract.multiplier);
    TotalPositive(c.exits + [f], o.contract.multiplier);
  }

  // ---- one fill -----------------------------------------------------------------------------

  lemma EntryAt(cfg: Config, listing: Listing, s: Ledger, c: Command, contract: Contract, q: Quote, n: int, price: real, now: Instant)
    requires PositionsOk(cfg, listing, s.positions) && Listed(listing, contract)
    requires q.contract.instrument == contract.instrument && n > 0 && price > 0.0
    ensures var t := ApplyEntry(cfg, s, c, contract, q, n, price, now); var at := contract.instrument;
      && (forall j: Id :: j != at ==> Get(t.positions, j) == Get(s.positions, j))
      && Has(t.positions, at) && Get(t.positions, at).value.contract == contract
      && Get(t.positions, at).value.quantity == Owned(s, at) + n
      && CostLessPnl(Get(t.positions, at).value) == At(CostLessPnl, Get(s.positions, at)) + Value(price, n, contract.multiplier)
      && t.closed == s.closed
  {
    var at := contract.instrument;
    PositionFacts(cfg, listing, s.positions, at);
    match Get(s.positions, at)
    case None =>
      var p := Opened(cfg, s, c, contract, q, n, price, now);
      forall j: Id ensures Get(Put(s.positions, at, p), j) == if j == at then Some(p) else Get(s.positions, j) { GetPut(s.positions, at, p, j); }
    case Some(p) =>
      AverageUpCost(p.average, p.quantity, price, n, contract.multiplier);
      var g := p.(quantity := p.quantity + n, average := AverageUp(p.average, p.quantity, price, n), bid := q.bid, ask := q.ask);
      var d := Put(s.positions, at, g);
      forall j: Id ensures Get(d, j) == if j == at then Some(g) else Get(s.positions, j) { GetPut(s.positions, at, g, j); }
      forall j: Id ensures Get(Put(d, at, Marked(g, q)), j) == if j == at then Some(Marked(g, q)) else Get(d, j) { GetPut(d, at, Marked(g, q), j); }
  }

  lemma ExitAt(cfg: Config, listing: Listing, s: Ledger, contract: Contract, n: int, price: real)
    requires PositionsOk(cfg, listing, s.positions) && Listed(listing, contract)
    requires Has(s.positions, contract.instrument) && 0 < n <= Get(s.positions, contract.instrument).value.quantity
    ensures var at := contract.instrument; var p := Get(s.positions, at).value; var v := Value(price, n, contract.multiplier);
      ApplyExit(s, contract, n, price).Some? && var t := ApplyExit(s, contract, n, price).value;
      && (forall j: Id :: j != at ==> Get(t.positions, j) == Get(s.positions, j) && ClosedSoFar(t, j) == ClosedSoFar(s, j))
      && (n < p.quantity ==>
            && Has(t.positions, at) && Get(t.positions, at).value.contract == contract
            && Get(t.positions, at).value.quantity == p.quantity - n
            && CostLessPnl(Get(t.positions, at).value) == CostLessPnl(p) - v
            && t.closed == s.closed)
      && (n == p.quantity ==>
            !Has(t.positions, at) && ClosedSoFar(t, at) == ClosedSoFar(s, at) + v - CostLessPnl(p))
  {
    var at := contract.instrument;
    PositionFacts(cfg, listing, s.positions, at);
    var p := Get(s.positions, at).value;
    var pnl := Unrealized(price, p.average, n, contract.multiplier);
    Distribute(price, p.average, n, contract.multiplier);
    if n == p.quantity {
      DelShape(s.positions, at);
      var total := ClosedSoFar(s, at) + p.realized + pnl;
      forall j: Id ensures Get(Put(s.closed, at, total), j) == if j == at then Some(total) else Get(s.closed, j) { GetPut(s.closed, at, total, j); }
    } else {
      SplitValue(p.average, p.quantity, n, contract.multiplier);
      var r := p.(quantity := p.quantity - n, realized := p.realized + pnl);
      forall j: Id ensures Get(Put(s.positions, at, r), j) == if j == at then Some(r) else Get(s.positions, j) { GetPut(s.positions, at, r, j); }
    }
  }

  lemma {:induction false} QuantityAppend(fills: seq<Fill>, f: Fill, id: Id)
    ensures QuantityFor(fills + [f], id) == QuantityFor(fills, id) + if f.orderId == id then f.quantity else 0
  {
    assert (fills + [f])[..|fills|] == fills;
  }

  lemma {:induction false} FillsOkAppend(d: Dict<Id, LedgerOrder>, e: Dict<Id, LedgerOrder>, fills: seq<Fill>, f: Fill, b: LedgerOrder, now: Instant)
    requires FillsOk(d, fills, now) && Has(d, f.orderId)
    requires forall j: Id :: Get(e, j) == if j == f.orderId then Some(b) else Get(d, j)
    requires b.published.filled == Get(d, f.orderId).value.published.filled + f.quantity
    requires b.published.createdAt == Get(d, f.orderId).value.published.createdAt <= f.createdAt
    requires f.fillId == |fills| && f.quantity > 0 && f.price > 0.0 && f.createdAt == now.t
    ensures FillsOk(e, fills + [f], now)
  {
    var all := fills + [f];
    forall k | 0 <= k < |all| ensures FillOk(e, k, all[k], now) {
      if k < |fills| { assert FillOk(d, k, fills[k], now); }
    }
    forall j, k | 0 <= j < k < |all| ensures all[j].createdAt <= all[k].createdAt { assert FillOk(d, j, fills[j], now); }
    forall id: Id ensures QuantityFor(all, id) == match Get(e, id) case None => 0 case Some(o) => o.published.filled {
      QuantityAppend(fills, f, id);
    }
  }

  /** What a fill leaves: its record, its order, and positions and closed results from its book side. */
  lemma FillRecord(cfg: Config, s: Ledger, o: LedgerOrder, q: Quote, d: FillDecision, now: Instant)
    requires d.ShouldFill() && ApplyFill(cfg, s, o, q, d, now).result.Ok?
    ensures var r := ApplyFill(cfg, s, o, q, d, now); var t := r.ledger; var f := r.result.value;
      var booked := BookFill(cfg, s, o, q, d.quantity, d.price.value, now);
      && booked.Ok? && t.positions == booked.value.positions && t.closed == booked.value.closed
      && t.fills == s.fills + [f] && f.fillId == |s.fills| && f.orderId == o.published.orderId
      && f.quantity == d.quantity > 0 && f.price == d.price.value > 0.0 && f.createdAt == now.t
      && t.orders == Put(s.orders, o.published.orderId, o.(published := FilledBy(o.published, d.quantity, d.price.value)))
  {
  }

  lemma NextTrade(s: Ledger, t: Ledger, f: Fill, o: Terms)
    requires t.fills == s.fills + [f] && LedgerTerms(t.orders, f.orderId) == Some(o)
    requires forall k :: 0 <= k < |s.fills| ==> Has(s.orders, s.fills[k].orderId)
    requires forall id: Id :: Has(s.orders, id) ==> LedgerTerms(t.orders, id) == LedgerTerms(s.orders, id)
    requires BookOf(s).Ok?
    ensures BookOf(t) == TakeTrade(BookOf(s).value, Trade(f, Some(o)))
  {
    SameTrades(s.orders, t.orders, s.fills);
    var a, b := LedgerTrades(s.orders, s.fills), LedgerTrades(t.orders, t.fills);
    assert b[..|b| - 1] == a;
  }

  /** Both sides of a buy fill, put together. */
  lemma {:induction false} BuyShift(s: Ledger, t: Ledger, b: CycleBook, n: CycleBook, at: Id, quantity: int, v: real, contract: Contract, now: int)
    requires Matches(s, b, now)
    requires (forall j: Id :: j != at ==> Get(t.positions, j) == Get(s.positions, j)) && t.closed == s.closed
    requires Has(t.positions, at) && Get(t.positions, at).value.contract == contract
    requires Get(t.positions, at).value.quantity == Owned(s, at) + quantity
    requires CostLessPnl(Get(t.positions, at).value) == At(CostLessPnl, Get(s.positions, at)) + v
    requires n.done == b.done && at in n.open && n.open == b.open[at := n.open[at]]
    requires CycleOk(n.open[at], now) && n.open[at].contract == contract
    requires n.open[at].balance == (if at in b.open then b.open[at].balance else 0) + quantity
    requires CycleValue(n.open[at]) == (if at in b.open then CycleValue(b.open[at]) else 0.0) + v
    ensures Matches(t, n, now)
  {
    assert InStep(s, b, now, at);
    forall i: Id ensures InStep(t, n, now, i) { assert InStep(s, b, now, i); }
  }

  lemma BuyInStep(cfg: Config, listing: Listing, s: Ledger, b: CycleBook, o: LedgerOrder, q: Quote, d: FillDecision, now: Instant)
    requires Workable(cfg, listing, s, o, q, d, now) && o.published.side.BuyToOpen? && Matches(s, b, now.t)
    requires ApplyFill(cfg, s, o, q, d, now).result.Ok?
    ensures var r := ApplyFill(cfg, s, o, q, d, now); var n := TakeTrade(b, Trade(r.result.value, Some(TermsOf(o.published))));
      n.Ok? && Matches(r.ledger, n.value, now.t)
  {
    var p, at := o.published, o.published.contract.instrument;
    OrderFacts(cfg, listing, s.orders, p.orderId, now);
    PositionFacts(cfg, listing, s.positions, at);
    FillRecord(cfg, s, o, q, d, now);
    var paid := s.(cash := s.cash - Notional(p, d.quantity, d.price.value));
    EntryAt(cfg, listing, paid, o.command, p.contract, q, d.quantity, d.price.value, now);
    var r := ApplyFill(cfg, s, o, q, d, now);
    assert InStep(s, b, now.t, at);
    BuyTrade(b, r.result.value, TermsOf(p), now.t);
    BuyShift(s, r.ledger, b, TakeTrade(b, Trade(r.result.value, Some(TermsOf(p)))).value, at, d.quantity,
             Value(d.price.value, d.quantity, p.contract.multiplier), p.contract, now.t);
  }

  /** Both sides of a sell fill, put together. */
  lemma {:induction false} SellShift(s: Ledger, t: Ledger, b: CycleBook, n: CycleBook, at: Id, quantity: int, v: real, now: int)
    requires Matches(s, b, now) && Has(s.positions, at) && 0 < quantity <= Get(s.positions, at).value.quantity
    requires forall j: Id :: j != at ==> Get(t.positions, j) == Get(s.positions, j) && ClosedSoFar(t, j) == ClosedSoFar(s, j)
    requires var p := Get(s.positions, at).value;
      && (quantity < p.quantity ==>
            && t.closed == s.closed && n.done == b.done && at in n.open && n.open == b.open[at := n.open[at]]
            && Has(t.positions, at) && Get(t.positions, at).value.contract == p.contract
            && Get(t.positions, at).value.quantity == p.quantity - quantity
            && CostLessPnl(Get(t.positions, at).value) == CostLessPnl(p) - v
            && CycleOk(n.open[at], now) && n.open[at].contract == p.contract && n.open[at].balance == p.quantity - quantity
            && CycleValue(n.open[at]) == CostLessPnl(p) - v)
      && (quantity == p.quantity ==>
            && !Has(t.positions, at) && ClosedSoFar(t, at) == ClosedSoFar(s, at) + v - CostLessPnl(p)
            && n.open == b.open - {at} && |n.done| == |b.done| + 1 && n.done[..|b.done|] == b.done
            && n.done[|b.done|].contract.instrument == at && OutcomeOk(n.done[|b.done|])
            && n.done[|b.done|].pnl == v - CostLessPnl(p))
    ensures Matches(t, n, now)
  {
    forall i: Id ensures InStep(t, n, now, i) { assert InStep(s, b, now, i); }
    forall k | 0 <= k < |n.done| ensures OutcomeOk(n.done[k]) {
      if k < |b.done| { assert n.done[k] == b.done[k]; }
    }
  }

  lemma SellInStep(cfg: Config, listing: Listing, s: Ledger, b: CycleBook, o: LedgerOrder, q: Quote, d: FillDecision, now: Instant)
    requires Workable(cfg, listing, s, o, q, d, now) && o.published.side.SellToClose? && Matches(s, b, now.t)
    requires ApplyFill(cfg, s, o, q, d, now).result.Ok?
    ensures var r := ApplyFill(cfg, s, o, q, d, now); var n := TakeTrade(b, Trade(r.result.value, Some(TermsOf(o.published))));
      n.Ok? && Matches(r.ledger, n.value, now.t)
  {
    var p, at := o.published, o.published.contract.instrument;
    OrderFacts(cfg, listing, s.orders, p.orderId, now);
    PositionFacts(cfg, listing, s.positions, at);
    SellCovered(cfg, listing, s, o, now);
    FillRecord(cfg, s, o, q, d, now);
    ExitAt(cfg, listing, s, p.contract, d.quantity, d.price.value);
    var r := ApplyFill(cfg, s, o, q, d, now);
    assert InStep(s, b, now.t, at);
    SellTrade(b, r.result.value, TermsOf(p), now.t);
    SellShift(s, r.ledger, b, TakeTrade(b, Trade(r.result.value, Some(TermsOf(p)))).value, at, d.quantity,
              Value(d.price.value, d.quantity, p.contract.multiplier), now.t);
  }

  lemma FillTracks(cfg: Config, listing: Listing, s: Ledger, o: LedgerOrder, q: Quote, d: FillDecision, now: Instant)
    requires Workable(cfg, listing, s, o, q, d, now) && Tracked(s, now)
    ensures Tracked(ApplyFill(cfg, s, o, q, d, now).ledger, now)
  {
    var r := ApplyFill(cfg, s, o, q, d, now);
    FillKeeps(cfg, listing, s, o, q, d, now);
    FillFiled(cfg, listing, s, o, q, d, now);
    if o.published.side.BuyToOpen? { BuyInStep(cfg, listing, s, BookOf(s).value, o, q, d, now); }
    else { SellInStep(cfg, listing, s, BookOf(s).value, o, q, d, now); }
  }

  /** The fill is in order among the fills, and is the next trade. */
  lemma FillFiled(cfg: Config, listing: Listing, s: Ledger, o: LedgerOrder, q: Quote, d: FillDecision, now: Instant)
    requires Workable(cfg, listing, s, o, q, d, now) && Tracked(s, now) && ApplyFill(cfg, s, o, q, d, now).result.Ok?
    ensures var r := ApplyFill(cfg, s, o, q, d, now);
      && FillsOk(r.ledger.orders, r.ledger.fills, now)
      && BookOf(r.ledger) == TakeTrade(BookOf(s).value, Trade(r.result.value, Some(TermsOf(o.published))))
  {
    var p := o.published;
    FillRecord(cfg, s, o, q, d, now);
    OrderFacts(cfg, listing, s.orders, p.orderId, now);
    var r := ApplyFill(cfg, s, o, q, d, now);
    var b := o.(published := FilledBy(p, d.quantity, d.price.value));
    forall j: Id ensures Get(r.ledger.orders, j) == if j == p.orderId then Some(b) else Get(s.orders, j) { GetPut(s.orders, p.orderId, b, j); }
    FillsOkAppend(s.orders, r.ledger.orders, s.fills, r.result.value, b, now);
    forall k | 0 <= k < |s.fills| ensures Has(s.orders, s.fills[k].orderId) { assert FillOk(s.orders, k, s.fills[k], now); }
    NextTrade(s, r.ledger, r.result.value, TermsOf(p));
  }

  // ---- calls --------------------------------------------------------------------------------

  lemma FillOneTracks(cfg: Config, listing: Listing, s: Ledger, q: Quote, id: Id, now: Instant)
    requires Inv(cfg, listing, s, now) && Tracked(s, now)
    ensures Tracked(FillOne(cfg, s, q, id, now).ledger, now)
  {
    FillOneOffers(cfg, s, q, id, now);
    if Has(s.orders, id) && Offered(cfg, Get(s.orders, id).value, q) {
      var o := Get(s.orders, id).value;
      OfferWorkable(cfg, listing, s, q, id, now);
      FillTracks(cfg, listing, s, o, q, Decided(cfg, o, q), now);
    }
  }

  lemma {:induction false} FillAllTracks(cfg: Config, listing: Listing, s: Ledger, q: Quote, ids: seq<Id>, produced: seq<Fill>, now: Instant)
    requires Inv(cfg, listing, s, now) && Tracked(s, now)
    ensures Tracked(FillAll(cfg, s, q, ids, produced, now).ledger, now)
    decreases |ids|
  {
    if ids != [] {
      var one := FillOne(cfg, s, q, ids[0], now);
      FillOneKeeps(cfg, listing, s, q, ids[0], now);
      FillOneTracks(cfg, listing, s, q, ids[0], now);
      FillAllTracks(cfg, listing, one.ledger, q, ids[1..], produced + one.result.value, now);
    }
  }

  lemma QuoteTracks(cfg: Config, listing: Listing, s: Ledger, q: Quote, now: Instant)
    requires Inv(cfg, listing, s, now) && Listed(listing, q.contract) && Tracked(s, now)
    ensures Tracked(ObserveQuote(cfg, s, q, now).ledger, now)
  {
    if QuoteFault(s, q, now).None? && !QuoteRepeated(s, q) {
      var t := MarkPosition(s.(quotes := Put(s.quotes, q.contract.instrument, q)), q);
      QuoteSeen(cfg, listing, s, q, now);
      MarkTracks(s, q, now);
      FillAllTracks(cfg, listing, t, q, KeysOf(t.orders), [], now);
    }
  }

  lemma {:induction false} MarkTracks(s: Ledger, q: Quote, now: Instant)
    requires Tracked(s, now)
    ensures Tracked(MarkPosition(s.(quotes := Put(s.quotes, q.contract.instrument, q)), q), now)
  {
    var t := MarkPosition(s.(quotes := Put(s.quotes, q.contract.instrument, q)), q);
    MarkPositionsKept(s, t, q);
    NoFillTracks(s, t, now);
  }

  lemma MarkPositionsKept(s: Ledger, t: Ledger, q: Quote)
    requires t.positions == MarkPosition(s, q).positions && t.closed == s.closed
    ensures KeepsPositions(s, t)
  {
    var at := q.contract.instrument;
    if Has(s.positions, at) {
      var m := Marked(Get(s.positions, at).value, q);
      forall i: Id ensures Get(t.positions, i) == if i == at then Some(m) else Get(s.positions, i) { GetPut(s.positions, at, m, i); }
    }
  }

  /** A submission under a fresh intent, as the service derives them. */
  ghost predicate FreshIntent(s: Ledger, c: Command) {
    c.idempotencyKey in s.orderByKey || !Has(s.orders, c.orderIntentId)
  }

  lemma SubmitTracks(cfg: Config, s: Ledger, c: Command, contract: Contract, now: Instant)
    requires Tracked(s, now) && FreshIntent(s, c)
    ensures Tracked(Submit(cfg, s, c, contract, now).ledger, now)
  {
    var t := Submit(cfg, s, c, contract, now).ledger;
    if CommandFault(cfg, s, c, contract).None? && Duplicate(s, c).None? {
      var o := LedgerOrder(NewOrder(cfg, c, contract, SubmitReasons(s, c, contract, now) == [], now), c);
      forall j: Id ensures Get(t.orders, j) == if j == c.orderIntentId then Some(o) else Get(s.orders, j) {
        GetPut(s.orders, c.orderIntentId, o, j);
      }
    }
    NoFillTracks(s, t, now);
  }

  lemma CancelTracks(cfg: Config, listing: Listing, s: Ledger, c: Command, target: Id, now: Instant)
    requires Inv(cfg, listing, s, now) && Tracked(s, now)
    ensures Tracked(Cancel(cfg, s, c, target).ledger, now)
  {
    OrderFacts(cfg, listing, s.orders, target, now);
    CancelOrders(cfg, s, c, target);
    CancelTables(cfg, s, c, target);
    NoFillTracks(s, Cancel(cfg, s, c, target).ledger, now);
  }

  lemma {:induction false} CancelOrders(cfg: Config, s: Ledger, c: Command, target: Id)
    requires Has(s.orders, target) ==> Get(s.orders, target).value.published.orderId == target
    ensures KeepsOrders(s.orders, Cancel(cfg, s, c, target).ledger.orders)
  {
    if Has(s.orders, target) {
      var o := Get(s.orders, target).value;
      var b := o.(published := o.published.(state := Canceled));
      forall j: Id ensures Get(Put(s.orders, target, b), j) == if j == target then Some(b) else Get(s.orders, j) {
        GetPut(s.orders, target, b, j);
      }
    }
  }

  lemma CancelTables(cfg: Config, s: Ledger, c: Command, target: Id)
    ensures var t := Cancel(cfg, s, c, target).ledger;
      t.fills == s.fills && t.positions == s.positions && t.closed == s.closed
  {
  }

  /** No held position is due: the condition under which an expiry closes nothing. */
  ghost predicate NothingDue(s: Ledger, onDate: Option<int>, now: Instant) {
    var date := match onDate case None => now.day case Some(d) => d;
    date > now.day || forall i :: 0 <= i < |s.positions| ==> s.positions[i].1.contract.expiration > date
  }

  lemma {:induction false} SettleNothing(s: Ledger, ids: seq<Id>, date: int, policy: Policy, prices: map<Id, real>, done: Expiration)
    requires forall i :: 0 <= i < |s.positions| ==> s.positions[i].1.contract.expiration > date
    ensures SettleAll(s, ids, date, policy, prices, done).ledger == s
    decreases |ids|
  {
    if ids != [] {
      GetAt(s.positions, ids[0]);
      SettleNothing(s, ids[1..], date, policy, prices, done);
    }
  }

  lemma ExpireTracks(s: Ledger, onDate: Option<int>, policy: Policy, prices: map<Id, real>, now: Instant)
    requires Tracked(s, now) && NothingDue(s, onDate, now)
    ensures Tracked(Expire(s, onDate, policy, prices, now).ledger, now)
  {
    var date := match onDate case None => now.day case Some(d) => d;
    if date <= now.day {
      var u := s.(orders := ExpireOrders(s.orders, date));
      forall j: Id ensures Get(u.orders, j) == match Get(s.orders, j) case None => None case Some(o) => Some(ExpireOrder(o, date)) {
        GetExpired(s.orders, date, j);
      }
      NoFillTracks(s, u, now);
      SettleNothing(u, KeysOf(s.positions), date, policy, prices, Expiration(now.t, date, ExpiredIds(s.orders, date), [], 0.0, 0.0, policy));
    }
  }

  /** The calls the agreement covers: submissions under fresh intents, expiries that close nothing. */
  ghost predicate Covers(s: Ledger, call: Call) {
    && (call.op.OpSubmit? ==> FreshIntent(s, call.op.command))
    && (call.op.OpExpire? ==> NothingDue(s, call.op.onDate, call.now))
  }

  lemma BooksUntouchedTracks(s: Ledger, t: Ledger, now: Instant)
    requires Tracked(s, now)
    requires t.fills == s.fills && t.orders == s.orders && t.positions == s.positions && t.closed == s.closed
    ensures Tracked(t, now)
  {
    NoFillTracks(s, t, now);
  }

  lemma OrderTracks(cfg: Config, listing: Listing, s: Ledger, call: Call)
    requires Inv(cfg, listing, s, call.now) && Tracked(s, call.now) && Covers(s, call) && (call.op.OpSubmit? || call.op.OpCancel?)
    ensures Tracked(Apply(cfg, s, call).0, call.now)
  {
    if call.op.OpSubmit? { SubmitTracks(cfg, s, call.op.command, call.op.contract, call.now); }
    else { CancelTracks(cfg, listing, s, call.op.command, call.op.target, call.now); }
  }

  lemma MarketTracks(cfg: Config, listing: Listing, s: Ledger, call: Call)
    requires Inv(cfg, listing, s, call.now) && OpListed(listing, call.op)
    requires Tracked(s, call.now) && Covers(s, call) && (call.op.OpQuote? || call.op.OpExpire?)
    ensures Tracked(Apply(cfg, s, call).0, call.now)
  {
    if call.op.OpQuote? { QuoteTracks(cfg, listing, s, call.op.quote, call.now); }
    else { ExpireTracks(s, call.op.onDate, call.op.policy, call.op.prices, call.now); }
  }

  lemma AdviceTracks(cfg: Config, s: Ledger, call: Call)
    requires Tracked(s, call.now) && (call.op.OpDeposit? || call.op.OpReview?)
    ensures Tracked(Apply(cfg, s, call).0, call.now)
  {
    BooksUntouchedTracks(s, Apply(cfg, s, call).0, call.now);
  }

  lemma StepTracks(cfg: Config, listing: Listing, s: Ledger, call: Call)
    requires Inv(cfg, listing, s, call.now) && OpListed(listing, call.op)
    requires Tracked(s, call.now) && Covers(s, call)
    ensures Tracked(Apply(cfg, s, call).0, call.now)
  {
    if call.op.OpSubmit? || call.op.OpCancel? { OrderTracks(cfg, listing, s, call); }
    else if call.op.OpExpire? || call.op.OpQuote? { MarketTracks(cfg, listing, s, call); }
    else { AdviceTracks(cfg, s, call); }
  }

  lemma FreshTracked(cfg: Config, now: Instant)
    ensures Tracked(Fresh(cfg), now)
  {
    assert LedgerTrades(Fresh(cfg).orders, Fresh(cfg).fills) == [];
  }

  lemma NextTracks(cfg: Config, listing: Listing, s: Ledger, since: Instant, call: Call)
    requires Inv(cfg, listing, s, since) && Tracked(s, since) && NotBefore(call.now, since)
    requires OpListed(listing, call.op) && Covers(s, call)
    ensures Tracked(Apply(cfg, s, call).0, call.now)
  {
    InvLater(cfg, listing, s, since, call.now);
    TrackedLater(s, since, call.now);
    StepTracks(cfg, listing, s, call);
  }

  /** Every call of the run is covered in the state it meets. */
  ghost predicate RunCovered(cfg: Config, calls: seq<Call>) {
    calls == [] ||
    (RunCovered(cfg, calls[..|calls| - 1]) && Covers(RunFrom(cfg, Fresh(cfg), calls[..|calls| - 1]).0, calls[|calls| - 1]))
  }

  /** Over every run in which expiry closes no position, the recomputed cycles and the
      incremental books agree, instrument by instrument. */
  lemma {:induction false} RunsAreTracked(cfg: Config, listing: Listing, start: Instant, calls: seq<Call>)
    requires Timely(start, calls) && CallsListed(listing, calls) && RunCovered(cfg, calls)
    ensures Tracked(RunFrom(cfg, Fresh(cfg), calls).0, EndOf(start, calls))
    decreases |calls|
  {
    if calls == [] {
      FreshTracked(cfg, start);
    } else {
      var n := |calls| - 1;
      RunsAreTracked(cfg, listing, start, calls[..n]);
      RunsAreSafe(cfg, listing, start, calls[..n]);
      var before := RunFrom(cfg, Fresh(cfg), calls[..n]).0;
      NextTracks(cfg, listing, before, EndOf(start, calls[..n]), calls[n]);
    }
  }
}
