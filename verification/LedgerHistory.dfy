/** How the tables of the ledger may evolve when no new order is submitted: orders only move
    forward, entries only accumulate, and no instrument becomes newly open. */
module LedgerHistory {
  import opened Dicts
  import opened Domain
  import opened FillModels
  import opened LedgerState
  import opened LedgerInvariant
  import opened LedgerRuns

  /** What may happen to one accepted or refused order: its terms stay, its filled quantity
      never shrinks, and an order that no longer works never changes again. */
  ghost predicate Evolves(a: LedgerOrder, b: LedgerOrder) {
    && b.command == a.command
    && b.published == a.published.(state := b.published.state, filled := b.published.filled, averageFill := b.published.averageFill)
    && a.published.filled <= b.published.filled
    && (!IsOpen(a.published.state) ==> a == b)
    && (IsOpen(a.published.state) ==> !b.published.state.Rejected?)
  }

  ghost predicate Continues(d: Dict<Id, LedgerOrder>, e: Dict<Id, LedgerOrder>) {
    |d| == |e| && forall i :: 0 <= i < |d| ==> d[i].0 == e[i].0 && Evolves(d[i].1, e[i].1)
  }

  lemma {:induction false} ContinuesPut(d: Dict<Id, LedgerOrder>, id: Id, b: LedgerOrder)
    requires Distinct(d) && Has(d, id) && Evolves(Get(d, id).value, b)
    ensures Continues(d, Put(d, id, b))
  {
    var e := Put(d, id, b);
    PutShape(d, id, b);
    forall i | 0 <= i < |d| ensures d[i].0 == e[i].0 && Evolves(d[i].1, e[i].1) {
      assert KeysOf(e)[i] == KeysOf(d)[i];
      PutShape(d, id, b);
      GetDistinct(d, i);
      PutAt(d, id, b, i);
    }
  }

  lemma {:induction false} PutAt<K, V>(d: Dict<K, V>, k: K, v: V, i: nat)
    requires Distinct(d) && Has(d, k) && i < |d| && |Put(d, k, v)| == |d|
    ensures Put(d, k, v)[i] == if d[i].0 == k then (k, v) else d[i]
  {
    if d[0].0 != k && i > 0 {
      assert d[i] == d[1..][i - 1];
      PutShape(d[1..], k, v);
      PutAt(d[1..], k, v, i - 1);
    }
  }

  function PendingBuy(o: LedgerOrder): bool {
    IsOpen(o.published.state) && o.published.side.BuyToOpen?
  }

  lemma {:induction false} PendingExactly(d: Dict<Id, LedgerOrder>, i: Id)
    ensures i in PendingInstruments(d) <==>
      exists k :: 0 <= k < |d| && PendingBuy(d[k].1) && d[k].1.published.contract.instrument == i
  {
    if d != [] {
      PendingExactly(d[1..], i);
      if k :| 0 <= k < |d[1..]| && PendingBuy(d[1..][k].1) && d[1..][k].1.published.contract.instrument == i {
        assert d[k + 1] == d[1..][k];
      }
      if k :| 0 < k < |d| && PendingBuy(d[k].1) && d[k].1.published.contract.instrument == i {
        assert d[1..][k - 1] == d[k];
      }
    }
  }

  lemma {:induction false} HeldExactly(d: Dict<Id, Position>, i: Id)
    ensures i in HeldInstruments(d) <==> Has(d, i)
  {
    if d != [] { HeldExactly(d[1..], i); }
  }

  lemma {:induction false} PendingShrinks(d: Dict<Id, LedgerOrder>, e: Dict<Id, LedgerOrder>)
    requires Continues(d, e)
    ensures PendingInstruments(e) <= PendingInstruments(d)
  {
    forall i | i in PendingInstruments(e) ensures i in PendingInstruments(d) {
      PendingExactly(e, i);
      var k :| 0 <= k < |e| && PendingBuy(e[k].1) && e[k].1.published.contract.instrument == i;
      assert PendingBuy(d[k].1) && d[k].1.published.contract.instrument == i;
      PendingExactly(d, i);
    }
  }

  /** The buys accepted on a market date. */
  ghost predicate AcceptedBuy(o: LedgerOrder, day: int) {
    o.published.side.BuyToOpen? && !o.published.state.Rejected?
    && o.published.submittedAt.Some? && o.published.submittedAt.value.day == day
  }

  ghost function AcceptedOn(d: Dict<Id, LedgerOrder>, day: int): set<Id> {
    set i | 0 <= i < |d| && AcceptedBuy(d[i].1, day) :: d[i].0
  }

  lemma AcceptedStays(d: Dict<Id, LedgerOrder>, e: Dict<Id, LedgerOrder>, day: int)
    requires Continues(d, e)
    ensures AcceptedOn(e, day) == AcceptedOn(d, day)
  {
    assert forall i :: 0 <= i < |d| ==> (AcceptedBuy(d[i].1, day) <==> AcceptedBuy(e[i].1, day));
    forall id ensures id in AcceptedOn(e, day) <==> id in AcceptedOn(d, day) {
      if id in AcceptedOn(e, day) {
        var i :| 0 <= i < |e| && AcceptedBuy(e[i].1, day) && e[i].0 == id;
        assert AcceptedBuy(d[i].1, day) && d[i].0 == id;
      }
      if id in AcceptedOn(d, day) {
        var i :| 0 <= i < |d| && AcceptedBuy(d[i].1, day) && d[i].0 == id;
        assert AcceptedBuy(e[i].1, day) && e[i].0 == id;
      }
    }
  }

  /** What every call but a submission does to the tables. */
  ghost predicate Quiet(s: Ledger, t: Ledger) {
    && Continues(s.orders, t.orders)
    && OpenInstruments(t) <= OpenInstruments(s)
    && (forall d: int :: EntriesOn(s, d) <= EntriesOn(t, d))
    && s.orderByKey.Keys <= t.orderByKey.Keys
  }

  lemma QuietThen(s: Ledger, t: Ledger, u: Ledger)
    requires Quiet(s, t) && Quiet(t, u)
    ensures Quiet(s, u)
  {
    forall i | 0 <= i < |s.orders| ensures s.orders[i].0 == u.orders[i].0 && Evolves(s.orders[i].1, u.orders[i].1) {
      assert Evolves(s.orders[i].1, t.orders[i].1) && Evolves(t.orders[i].1, u.orders[i].1);
    }
    forall d: int ensures EntriesOn(s, d) <= EntriesOn(u, d) {
      assert EntriesOn(s, d) <= EntriesOn(t, d) && EntriesOn(t, d) <= EntriesOn(u, d);
    }
  }

  lemma OpenOnly(s: Ledger, t: Ledger)
    requires Continues(s.orders, t.orders)
    requires forall i: Id :: Has(t.positions, i) ==> i in OpenInstruments(s)
    ensures OpenInstruments(t) <= OpenInstruments(s)
  {
    PendingShrinks(s.orders, t.orders);
    forall i | i in OpenInstruments(t) ensures i in OpenInstruments(s) { HeldExactly(t.positions, i); }
  }

  lemma HeldIsOpen(s: Ledger)
    ensures forall i: Id :: Has(s.positions, i) ==> i in OpenInstruments(s)
  {
    forall i: Id | Has(s.positions, i) ensures i in OpenInstruments(s) { HeldExactly(s.positions, i); }
  }

  /** One order is rewritten, nothing newly held, entries and keys only grow. */
  lemma {:induction false} QuietWrite(s: Ledger, t: Ledger, id: Id, b: LedgerOrder)
    requires Distinct(s.orders) && Has(s.orders, id) && Evolves(Get(s.orders, id).value, b)
    requires t.orders == Put(s.orders, id, b)
    requires forall i: Id :: Has(t.positions, i) ==> i in OpenInstruments(s)
    requires forall d: int :: EntriesOn(s, d) <= EntriesOn(t, d)
    requires s.orderByKey.Keys <= t.orderByKey.Keys
    ensures Quiet(s, t)
  {
    ContinuesPut(s.orders, id, b);
    OpenOnly(s, t);
  }

  lemma QuietSame(s: Ledger, t: Ledger)
    requires t.orders == s.orders && t.entries == s.entries
    requires forall i: Id :: Has(t.positions, i) ==> Has(s.positions, i)
    requires s.orderByKey.Keys <= t.orderByKey.Keys
    ensures Quiet(s, t)
  {
    HeldIsOpen(s);
    OpenOnly(s, t);
  }

  lemma PositionsAreOwned(cfg: Config, listing: Listing, s: Ledger, i: Id)
    requires PositionsOk(cfg, listing, s.positions)
    ensures Has(s.positions, i) <==> Owned(s, i) > 0
  {
    PositionFacts(cfg, listing, s.positions, i);
  }

  /** The tables a fill writes, whatever the books. */
  lemma FillTables(cfg: Config, s: Ledger, o: LedgerOrder, q: Quote, d: FillDecision, now: Instant)
    requires d.ShouldFill() && ApplyFill(cfg, s, o, q, d, now).result.Ok?
    ensures var t := ApplyFill(cfg, s, o, q, d, now).ledger;
      && t.orders == Put(s.orders, o.published.orderId, o.(published := FilledBy(o.published, d.quantity, d.price.value)))
      && t.orderByKey == s.orderByKey
      && t.positions == BookFill(cfg, s, o, q, d.quantity, d.price.value, now).value.positions
  {
  }

  /** One offer writes at most its own order, and only if the quote is later than its submission. */
  lemma {:induction false} OfferLeaves(cfg: Config, listing: Listing, s: Ledger, q: Quote, offered: Id, now: Instant, id: Id)
    requires Inv(cfg, listing, s, now) && Has(s.orders, id)
    requires var p := Get(s.orders, id).value.published; p.submittedAt.Some? ==> q.effectiveAt <= p.submittedAt.value.t
    ensures Get(FillOne(cfg, s, q, offered, now).ledger.orders, id) == Get(s.orders, id)
  {
    FillOneOffers(cfg, s, q, offered, now);
    if Has(s.orders, offered) && Offered(cfg, Get(s.orders, offered).value, q) {
      var o := Get(s.orders, offered).value;
      var d := Decided(cfg, o, q);
      OrderFacts(cfg, listing, s.orders, offered, now);
      OfferWorkable(cfg, listing, s, q, offered, now);
      FillKeeps(cfg, listing, s, o, q, d, now);
      FillTables(cfg, s, o, q, d, now);
      GetPut(s.orders, offered, o.(published := FilledBy(o.published, d.quantity, d.price.value)), id);
    }
  }

  /** A quote fills no order submitted at its own effective instant: the comparison is strict. */
  lemma {:induction false} SameInstantNeverFills(cfg: Config, listing: Listing, s: Ledger, q: Quote, ids: seq<Id>, produced: seq<Fill>, now: Instant, id: Id)
    requires Inv(cfg, listing, s, now) && Has(s.orders, id)
    requires var p := Get(s.orders, id).value.published; p.submittedAt.Some? ==> q.effectiveAt <= p.submittedAt.value.t
    ensures Get(FillAll(cfg, s, q, ids, produced, now).ledger.orders, id) == Get(s.orders, id)
    decreases |ids|
  {
    if ids != [] {
      var one := FillOne(cfg, s, q, ids[0], now);
      OfferLeaves(cfg, listing, s, q, ids[0], now, id);
      FillOneKeeps(cfg, listing, s, q, ids[0], now);
      SameInstantNeverFills(cfg, listing, one.ledger, q, ids[1..], produced + one.result.value, now, id);
    }
  }

  /** A fill forgets no entry. */
  lemma FillEntries(cfg: Config, s: Ledger, o: LedgerOrder, q: Quote, d: FillDecision, now: Instant)
    requires d.ShouldFill() && ApplyFill(cfg, s, o, q, d, now).result.Ok?
    ensures forall x: int :: EntriesOn(s, x) <= EntriesOn(ApplyFill(cfg, s, o, q, d, now).ledger, x)
  {
  }

  lemma BuyHolds(cfg: Config, listing: Listing, s: Ledger, o: LedgerOrder, q: Quote, d: FillDecision, now: Instant, i: Id)
    requires Workable(cfg, listing, s, o, q, d, now) && o.published.side.BuyToOpen?
    requires BookFill(cfg, s, o, q, d.quantity, d.price.value, now).Ok?
    requires Has(BookFill(cfg, s, o, q, d.quantity, d.price.value, now).value.positions, i)
    ensures Has(s.positions, i) || i == o.published.contract.instrument
  {
    var p, n, price := o.published, d.quantity, d.price.value;
    var paid := s.(cash := s.cash - Notional(p, n, price));
    OrderFacts(cfg, listing, s.orders, p.orderId, now);
    EntryEffect(cfg, listing, paid, o.command, p.contract, q, n, price, now);
    PositionsAreOwned(cfg, listing, ApplyEntry(cfg, paid, o.command, p.contract, q, n, price, now), i);
    PositionsAreOwned(cfg, listing, paid, i);
  }

  lemma SellHolds(cfg: Config, listing: Listing, s: Ledger, o: LedgerOrder, q: Quote, d: FillDecision, now: Instant, i: Id)
    requires Workable(cfg, listing, s, o, q, d, now) && o.published.side.SellToClose?
    requires BookFill(cfg, s, o, q, d.quantity, d.price.value, now).Ok?
    requires Has(BookFill(cfg, s, o, q, d.quantity, d.price.value, now).value.positions, i)
    ensures Has(s.positions, i)
  {
    var p, n, price := o.published, d.quantity, d.price.value;
    OrderFacts(cfg, listing, s.orders, p.orderId, now);
    SellCovered(cfg, listing, s, o, now);
    ExitEffect(cfg, listing, s, p.contract, n, price);
    PositionsAreOwned(cfg, listing, ApplyExit(s, p.contract, n, price).value, i);
    PositionsAreOwned(cfg, listing, s, i);
  }

  lemma FillHolds(cfg: Config, listing: Listing, s: Ledger, o: LedgerOrder, q: Quote, d: FillDecision, now: Instant)
    requires Workable(cfg, listing, s, o, q, d, now)
    ensures ApplyFill(cfg, s, o, q, d, now).result.Ok?
    ensures forall i: Id :: Has(ApplyFill(cfg, s, o, q, d, now).ledger.positions, i) ==> i in OpenInstruments(s)
  {
    var p, n, price := o.published, d.quantity, d.price.value;
    FillKeeps(cfg, listing, s, o, q, d, now);
    FillTables(cfg, s, o, q, d, now);
    HeldIsOpen(s);
    GetAt(s.orders, p.orderId);
    var k :| 0 <= k < |s.orders| && s.orders[k] == (p.orderId, o);
    PendingExactly(s.orders, p.contract.instrument);
    forall i: Id | Has(ApplyFill(cfg, s, o, q, d, now).ledger.positions, i) ensures i in OpenInstruments(s) {
      if p.side.BuyToOpen? {
        assert PendingBuy(s.orders[k].1);
        BuyHolds(cfg, listing, s, o, q, d, now, i);
      }
      else { SellHolds(cfg, listing, s, o, q, d, now, i); }
    }
  }

  lemma AppliedQuiet(cfg: Config, listing: Listing, s: Ledger, o: LedgerOrder, q: Quote, d: FillDecision, now: Instant)
    requires Workable(cfg, listing, s, o, q, d, now)
    ensures Quiet(s, ApplyFill(cfg, s, o, q, d, now).ledger)
  {
    FillHolds(cfg, listing, s, o, q, d, now);
    FillTables(cfg, s, o, q, d, now);
    FillEntries(cfg, s, o, q, d, now);
    QuietWrite(s, ApplyFill(cfg, s, o, q, d, now).ledger, o.published.orderId, o.(published := FilledBy(o.published, d.quantity, d.price.value)));
  }

  lemma FillOneQuiet(cfg: Config, listing: Listing, s: Ledger, q: Quote, id: Id, now: Instant)
    requires Inv(cfg, listing, s, now)
    ensures Quiet(s, FillOne(cfg, s, q, id, now).ledger)
  {
    OrderFacts(cfg, listing, s.orders, id, now);
    QuietSame(s, s);
    match Get(s.orders, id)
    case None =>
    case Some(o) =>
      var p := o.published;
      var d := Evaluate(cfg.model, p, q, p.quantity - p.filled);
      EvaluateSound(cfg.model, p, q, p.quantity - p.filled);
      if Eligible(p, q) && d.ShouldFill() { AppliedQuiet(cfg, listing, s, o, q, d, now); }
  }

  lemma {:induction false} FillAllQuiet(cfg: Config, listing: Listing, s: Ledger, q: Quote, ids: seq<Id>, produced: seq<Fill>, now: Instant)
    requires Inv(cfg, listing, s, now)
    ensures Quiet(s, FillAll(cfg, s, q, ids, produced, now).ledger)
    decreases |ids|
  {
    QuietSame(s, s);
    if ids != [] {
      FillOneKeeps(cfg, listing, s, q, ids[0], now);
      FillOneQuiet(cfg, listing, s, q, ids[0], now);
      var one := FillOne(cfg, s, q, ids[0], now);
      FillAllQuiet(cfg, listing, one.ledger, q, ids[1..], produced + one.result.value, now);
      QuietThen(s, one.ledger, FillAll(cfg, one.ledger, q, ids[1..], produced + one.result.value, now).ledger);
    }
  }

  lemma QuoteQuiet(cfg: Config, listing: Listing, s: Ledger, q: Quote, now: Instant)
    requires Inv(cfg, listing, s, now) && Listed(listing, q.contract)
    ensures Quiet(s, ObserveQuote(cfg, s, q, now).ledger)
  {
    QuietSame(s, s);
    if QuoteFault(s, q, now).None? && !QuoteRepeated(s, q) {
      QuoteSeen(cfg, listing, s, q, now);
      var u := s.(quotes := Put(s.quotes, q.contract.instrument, q));
      var t := MarkPosition(u, q);
      MarkKeeps(cfg, listing, u, q);
      forall i: Id | Has(t.positions, i) ensures Has(s.positions, i) {
        PositionsAreOwned(cfg, listing, t, i);
        PositionsAreOwned(cfg, listing, s, i);
        assert Owned(t, i) == Owned(u, i) == Owned(s, i);
      }
      QuietSame(s, t);
      FillAllQuiet(cfg, listing, t, q, KeysOf(t.orders), [], now);
      QuietThen(s, t, FillAll(cfg, t, q, KeysOf(t.orders), [], now).ledger);
    }
  }

  lemma CancelQuiet(cfg: Config, listing: Listing, s: Ledger, c: Command, target: Id, now: Instant)
    requires Inv(cfg, listing, s, now)
    ensures Quiet(s, Cancel(cfg, s, c, target).ledger)
  {
    OrderFacts(cfg, listing, s.orders, target, now);
    HeldIsOpen(s);
    var t := Cancel(cfg, s, c, target).ledger;
    if t.orders == s.orders {
      QuietSame(s, t);
    } else {
      var o := Get(s.orders, target).value;
      QuietWrite(s, t, target, o.(published := o.published.(state := Canceled)));
    }
  }

  lemma SettleOneQuiet(cfg: Config, listing: Listing, s: Ledger, id: Id, date: int, policy: Policy, prices: map<Id, real>, done: Expiration)
    requires PositionsOk(cfg, listing, s.positions)
    ensures var t := SettleOne(s, id, date, policy, prices, done).ledger; Quiet(s, t) && PositionsOk(cfg, listing, t.positions)
  {
    DelPosition(cfg, listing, s.positions, id);
    QuietSame(s, SettleOne(s, id, date, policy, prices, done).ledger);
  }

  lemma {:induction false} SettleQuiet(cfg: Config, listing: Listing, s: Ledger, ids: seq<Id>, date: int, policy: Policy,
                                       prices: map<Id, real>, done: Expiration)
    requires PositionsOk(cfg, listing, s.positions)
    ensures Quiet(s, SettleAll(s, ids, date, policy, prices, done).ledger)
    decreases |ids|
  {
    if ids == [] {
      QuietSame(s, s);
    } else {
      var one := SettleOne(s, ids[0], date, policy, prices, done);
      SettleOneQuiet(cfg, listing, s, ids[0], date, policy, prices, done);
      if one.result.Ok? {
        SettleQuiet(cfg, listing, one.ledger, ids[1..], date, policy, prices, one.result.value);
        QuietThen(s, one.ledger, SettleAll(one.ledger, ids[1..], date, policy, prices, one.result.value).ledger);
      }
    }
  }

  lemma ExpireQuiet(cfg: Config, listing: Listing, s: Ledger, onDate: Option<int>, policy: Policy, prices: map<Id, real>, now: Instant)
    requires Inv(cfg, listing, s, now)
    ensures Quiet(s, Expire(s, onDate, policy, prices, now).ledger)
  {
    QuietSame(s, s);
    var date := match onDate case None => now.day case Some(d) => d;
    if date <= now.day {
      var t := s.(orders := ExpireOrders(s.orders, date));
      HeldIsOpen(s);
      OpenOnly(s, t);
      var done := Expiration(now.t, date, ExpiredIds(s.orders, date), [], 0.0, 0.0, policy);
      SettleQuiet(cfg, listing, t, KeysOf(s.positions), date, policy, prices, done);
      QuietThen(s, t, SettleAll(t, KeysOf(s.positions), date, policy, prices, done).ledger);
    }
  }

  /** No call but a submission opens an instrument, accepts a buy, or changes an order's terms. */
  lemma ApplyQuiet(cfg: Config, listing: Listing, s: Ledger, call: Call)
    requires Inv(cfg, listing, s, call.now) && OpListed(listing, call.op) && !call.op.OpSubmit?
    ensures Quiet(s, Apply(cfg, s, call).0)
  {
    match call.op
    case OpDeposit(amount, reference) => QuietSame(s, Apply(cfg, s, call).0);
    case OpReview(p) => QuietSame(s, Apply(cfg, s, call).0);
    case OpCancel(c, target) => CancelQuiet(cfg, listing, s, c, target, call.now);
    case OpQuote(q) => QuoteQuiet(cfg, listing, s, q, call.now);
    case OpExpire(onDate, policy, prices) => ExpireQuiet(cfg, listing, s, onDate, policy, prices, call.now);
  }
}
