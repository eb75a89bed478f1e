/** The review of closed positions, run on the journal of a ledger. */
module OutcomeAgreement {
  import opened Dicts
  import opened Domain
  import opened Folds
  import opened Sorting
  import opened LedgerState
  import opened LedgerInvariant
  import opened LedgerRuns
  import opened Outcomes
  import opened OutcomeTracking
  import opened OutcomeOrder

  // ---- when the order rows can be read at all -----------------------------------------------

  ghost predicate SameIdSameTerms(a: OrderRow, b: OrderRow) {
    a.order.orderId == b.order.orderId ==> TermsOf(a.order) == TermsOf(b.order)
  }

  ghost predicate Readable(rows: seq<OrderRow>, now: int) {
    && (forall i :: 0 <= i < |rows| && OrderVisible(rows[i], now) ==> rows[i].order.filled <= rows[i].order.quantity)
    && (forall i, j :: 0 <= i < j < |rows| && OrderVisible(rows[i], now) && OrderVisible(rows[j], now)
          ==> SameIdSameTerms(rows[i], rows[j]))
  }

  ghost predicate ReadFrom(rows: seq<OrderRow>, i: int, o: BrokerOrder, now: int) {
    0 <= i < |rows| && OrderVisible(rows[i], now) && rows[i].order == o
  }

  /** What has been read speaks for every visible row read so far. */
  ghost predicate Speaks(b: OrderBook, rows: seq<OrderRow>, now: int) {
    && (forall i :: 0 <= i < |rows| && OrderVisible(rows[i], now) ==>
          var o := rows[i].order; o.orderId in b.orders && TermsOf(b.orders[o.orderId]) == TermsOf(o))
    && (forall id :: id in b.orders ==> b.orders[id].orderId == id && exists i :: ReadFrom(rows, i, b.orders[id], now))
  }

  lemma UnreadableStays(before: seq<OrderRow>, last: OrderRow, now: int)
    requires Readable(before + [last], now)
    ensures Readable(before, now)
  {
    var rows := before + [last];
    assert forall i :: 0 <= i < |before| ==> rows[i] == before[i];
    forall i, j | 0 <= i < j < |before| && OrderVisible(before[i], now) && OrderVisible(before[j], now)
      ensures SameIdSameTerms(before[i], before[j])
    {
      assert SameIdSameTerms(rows[i], rows[j]);
    }
  }

  lemma {:induction false} ReadableExactly(rows: seq<OrderRow>, now: int)
    ensures var r := Fold(OrderStep(now), NoOrders, rows);
      (r.Ok? <==> Readable(rows, now)) && (r.Ok? ==> Speaks(r.value, rows, now))
    decreases |rows|
  {
    if rows != [] {
      var n := |rows| - 1;
      var before, last := rows[..n], rows[n];
      assert rows == before + [last];
      ReadableExactly(before, now);
      if Readable(before, now) {
        ReadNext(Fold(OrderStep(now), NoOrders, before).value, before, last, now);
      } else if Readable(rows, now) {
        UnreadableStays(before, last, now);
      }
    }
  }

  /** A row clashes with what was read exactly when it has other terms under a known id. */
  lemma NextReadable(b: OrderBook, before: seq<OrderRow>, last: OrderRow, now: int)
    requires Readable(before, now) && Speaks(b, before, now)
    ensures TakeOrder(b, last, now).Ok? <==> Readable(before + [last], now)
  {
    var rows, n := before + [last], |before|;
    var id := last.order.orderId;
    assert forall i :: 0 <= i < n ==> rows[i] == before[i];
    assert rows[n] == last;
    if OrderVisible(last, now) && id in b.orders {
      var i :| ReadFrom(before, i, b.orders[id], now);
      assert SameIdSameTerms(rows[i], rows[n]) <==> TermsOf(b.orders[id]) == TermsOf(last.order);
    }
    if TakeOrder(b, last, now).Ok? {
      forall i, j | 0 <= i < j < |rows| && OrderVisible(rows[i], now) && OrderVisible(rows[j], now)
        ensures SameIdSameTerms(rows[i], rows[j])
      {
        if j < n { assert SameIdSameTerms(before[i], before[j]); }
      }
    }
  }

  lemma NextSpeaks(b: OrderBook, before: seq<OrderRow>, last: OrderRow, now: int)
    requires Speaks(b, before, now) && TakeOrder(b, last, now).Ok?
    ensures Speaks(TakeOrder(b, last, now).value, before + [last], now)
  {
    var rows, n, r := before + [last], |before|, TakeOrder(b, last, now).value;
    assert forall i :: 0 <= i < n ==> rows[i] == before[i];
    assert rows[n] == last;
    forall k | k in r.orders ensures exists i :: ReadFrom(rows, i, r.orders[k], now) {
      if k in b.orders && r.orders[k] == b.orders[k] {
        var i :| ReadFrom(before, i, b.orders[k], now);
        assert ReadFrom(rows, i, r.orders[k], now);
      } else {
        assert ReadFrom(rows, n, r.orders[k], now);
      }
    }
  }

  lemma ReadNext(b: OrderBook, before: seq<OrderRow>, last: OrderRow, now: int)
    requires Readable(before, now) && Speaks(b, before, now)
    ensures TakeOrder(b, last, now).Ok? <==> Readable(before + [last], now)
    ensures TakeOrder(b, last, now).Ok? ==> Speaks(TakeOrder(b, last, now).value, before + [last], now)
  {
    NextReadable(b, before, last, now);
    if TakeOrder(b, last, now).Ok? { NextSpeaks(b, before, last, now); }
  }

  /** The row the service stores for a cancellation: the target order, its id kept, under the
      cancellation's own intent. */
  function CancellationOf(target: BrokerOrder, intent: Id): BrokerOrder {
    target.(intentId := intent, state := Submitting)
  }

  /** The review cannot read any journal that holds an order together with a cancellation of it:
      both rows carry one order id with two intents. */
  lemma CancellationBlocksReview(orderRows: seq<OrderRow>, fillRows: seq<FillRow>, now: int, i: nat, j: nat, intent: Id)
    requires i < |orderRows| && j < |orderRows|
    requires OrderVisible(orderRows[i], now) && OrderVisible(orderRows[j], now)
    requires orderRows[j].order == CancellationOf(orderRows[i].order, intent) && intent != orderRows[i].order.intentId
    ensures Derived(orderRows, fillRows, now).Err?
  {
    ReadableExactly(orderRows, now);
    assert TermsOf(orderRows[i].order).intentId != TermsOf(orderRows[j].order).intentId;
    assert !SameIdSameTerms(orderRows[i], orderRows[j]) && !SameIdSameTerms(orderRows[j], orderRows[i]);
  }

  // ---- the journal of a ledger --------------------------------------------------------------

  /** An earlier published version of a ledger order. */
  ghost predicate Version(o: LedgerOrder, b: BrokerOrder) {
    var p := o.published;
    TermsOf(b) == TermsOf(p) && b.createdAt == p.createdAt && b.submittedAt == p.submittedAt && 0 <= b.filled <= p.filled
  }

  /** Rows are versions of ledger orders, or unfilled rows of other orders (the pending records
      the service writes first); `others` gives the terms of the latter. */
  ghost predicate OrderRowOk(s: Ledger, others: map<Id, Terms>, row: OrderRow) {
    var id := row.order.orderId;
    if Has(s.orders, id) then Version(Get(s.orders, id).value, row.order) && row.at == row.order.createdAt
    else row.order.filled == 0 && id in others && TermsOf(row.order) == others[id]
  }

  ghost predicate OrderJournal(s: Ledger, others: map<Id, Terms>, rows: seq<OrderRow>) {
    && (forall k :: 0 <= k < |rows| ==> OrderRowOk(s, others, rows[k]))
    && (forall id: Id :: Has(s.orders, id) ==>
          exists k :: 0 <= k < |rows| && rows[k].order.orderId == id && rows[k].order.filled == Get(s.orders, id).value.published.filled)
  }

  function FillsOf(rows: seq<FillRow>): seq<Fill> {
    seq(|rows|, i requires 0 <= i < |rows| => rows[i].fill)
  }

  /** Fills of one instrument made at one instant. */
  ghost predicate Tied(d: Dict<Id, LedgerOrder>, a: Fill, b: Fill) {
    a.createdAt == b.createdAt && exists i: Id :: FillAt(d, a, i) && FillAt(d, b, i)
  }

  /** Every fill of the ledger once, listed under decreasing append sequences. Fills may have been
      appended in any order, except that two of one instrument made at one instant keep theirs. */
  ghost predicate FillJournal(d: Dict<Id, LedgerOrder>, fills: seq<Fill>, rows: seq<FillRow>) {
    && multiset(FillsOf(rows)) == multiset(fills)
    && (forall k :: 0 <= k < |rows| ==> rows[k].at == rows[k].fill.createdAt)
    && (forall j, k :: 0 <= j < k < |rows| ==> rows[j].sequence > rows[k].sequence)
    && (forall j, k :: 0 <= j < k < |rows| && Tied(d, rows[j].fill, rows[k].fill) ==> rows[j].fill.fillId > rows[k].fill.fillId)
  }

  /** All fills were appended in the ledger's order. */
  ghost predicate AppendedInOrder(fills: seq<Fill>, rows: seq<FillRow>) {
    |rows| == |fills| && forall k :: 0 <= k < |rows| ==> rows[k].fill == fills[|fills| - 1 - k]
  }

  // ---- reading the orders -------------------------------------------------------------------

  ghost predicate OrdersRead(s: Ledger, others: map<Id, Terms>, rows: seq<OrderRow>, b: OrderBook) {
    && (forall id :: id in b.orders ==>
          if Has(s.orders, id) then Version(Get(s.orders, id).value, b.orders[id]) && Recorded(b.filled, id) <= Get(s.orders, id).value.published.filled
          else id in others && Recorded(b.filled, id) == 0)
    && (forall id :: id !in b.orders ==> Recorded(b.filled, id) == 0)
    && (forall k :: 0 <= k < |rows| && Has(s.orders, rows[k].order.orderId) ==>
          rows[k].order.orderId in b.orders && rows[k].order.filled <= Recorded(b.filled, rows[k].order.orderId))
    && (forall id :: id in b.orders ==> b.orders[id].orderId == id && (!Has(s.orders, id) ==> TermsOf(b.orders[id]) == others[id]))
  }

  lemma ReadOrder(cfg: Config, listing: Listing, s: Ledger, others: map<Id, Terms>, before: seq<OrderRow>, row: OrderRow, b: OrderBook, now: Instant)
    requires OrdersOk(cfg, listing, s.orders, now) && OrdersRead(s, others, before, b) && OrderRowOk(s, others, row)
    ensures TakeOrder(b, row, now.t).Ok? && OrdersRead(s, others, before + [row], TakeOrder(b, row, now.t).value)
  {
    var id := row.order.orderId;
    OrderFacts(cfg, listing, s.orders, id, now);
    var r := TakeOrder(b, row, now.t);
    var rows := before + [row];
    forall k | 0 <= k < |rows| && Has(s.orders, rows[k].order.orderId)
      ensures rows[k].order.orderId in r.value.orders && rows[k].order.filled <= Recorded(r.value.filled, rows[k].order.orderId)
    {
      if k < |before| { assert rows[k] == before[k]; }
    }
  }

  lemma {:induction false} ReadOrders(cfg: Config, listing: Listing, s: Ledger, others: map<Id, Terms>, rows: seq<OrderRow>, now: Instant)
    requires OrdersOk(cfg, listing, s.orders, now)
    requires forall k :: 0 <= k < |rows| ==> OrderRowOk(s, others, rows[k])
    ensures var r := Fold(OrderStep(now.t), NoOrders, rows); r.Ok? && OrdersRead(s, others, rows, r.value)
    decreases |rows|
  {
    if rows != [] {
      var n := |rows| - 1;
      ReadOrders(cfg, listing, s, others, rows[..n], now);
      ReadOrder(cfg, listing, s, others, rows[..n], rows[n], Fold(OrderStep(now.t), NoOrders, rows[..n]).value, now);
      assert rows == rows[..n] + [rows[n]];
    }
  }

  // ---- reading the fills --------------------------------------------------------------------

  function Keyed(rows: seq<FillRow>): FillBook {
    seq(|rows|, i requires 0 <= i < |rows| => (rows[i].fill.fillId, (rows[i].fill, rows[i].sequence)))
  }

  lemma {:induction false} ReadFills(rows: seq<FillRow>, now: int)
    requires forall k :: 0 <= k < |rows| ==> rows[k].at <= now && rows[k].fill.createdAt <= now
    requires forall j, k :: 0 <= j < k < |rows| ==> rows[j].fill.fillId != rows[k].fill.fillId
    ensures Fold(FillStep(now), [], rows) == Ok(Keyed(rows))
    decreases |rows|
  {
    if rows != [] {
      var n := |rows| - 1;
      ReadFills(rows[..n], now);
      var d := Keyed(rows[..n]);
      GetAt(d, rows[n].fill.fillId);
      PutShape(d, rows[n].fill.fillId, (rows[n].fill, rows[n].sequence));
      assert Keyed(rows) == d + [(rows[n].fill.fillId, (rows[n].fill, rows[n].sequence))];
    } else {
      assert Keyed(rows) == [];
    }
  }

  // ---- matching -----------------------------------------------------------------------------

  lemma {:induction false} QuantityConcat(a: seq<Fill>, b: seq<Fill>, id: Id)
    ensures QuantityFor(a + b, id) == QuantityFor(a, id) + QuantityFor(b, id)
    decreases |b|
  {
    if b == [] {
      assert a + b == a;
    } else {
      var n := |b| - 1;
      assert (a + b)[..|a + b| - 1] == a + b[..n];
      QuantityConcat(a, b[..n], id);
    }
  }

  lemma {:induction false} QuantityWithout(fs: seq<Fill>, k: nat, id: Id)
    requires k < |fs|
    ensures QuantityFor(fs, id) == QuantityFor(fs[..k] + fs[k + 1..], id) + if fs[k].orderId == id then fs[k].quantity else 0
    ensures multiset(fs[..k] + fs[k + 1..]) == multiset(fs) - multiset{fs[k]}
  {
    Counted(fs, k);
    assert multiset(fs[..k] + fs[k + 1..]) == multiset(fs[..k]) + multiset(fs[k + 1..]);
    QuantityConcat(fs[..k], fs[k + 1..], id);
    QuantityConcat(fs[..k] + [fs[k]], fs[k + 1..], id);
    QuantityAppend(fs[..k], fs[k], id);
    assert fs == fs[..k] + [fs[k]] + fs[k + 1..];
  }

  lemma {:induction false} QuantitySame(a: seq<Fill>, b: seq<Fill>, id: Id)
    requires multiset(a) == multiset(b)
    ensures QuantityFor(a, id) == QuantityFor(b, id)
    decreases |a|
  {
    assert |multiset(a)| == |a| && |multiset(b)| == |b|;
    if a != [] {
      assert a[0] in multiset(b);
      var k :| 0 <= k < |b| && b[k] == a[0];
      QuantityWithout(a, 0, id);
      QuantityWithout(b, k, id);
      QuantitySame(a[..0] + a[1..], b[..k] + b[k + 1..], id);
    }
  }

  function Firsts(ps: seq<(Fill, int)>): seq<Fill> {
    seq(|ps|, i requires 0 <= i < |ps| => ps[i].0)
  }

  ghost predicate MatchRead(listing: Listing, done: seq<Fill>, m: MatchBook) {
    && (forall id: Id :: Recorded(m.byOrder, id) == QuantityFor(done, id))
    && (forall i :: i in m.intents ==> m.intents[i] == i)
    && (forall at :: at in m.contracts ==> at in listing && m.contracts[at] == listing[at])
  }

  /** A fill finds its own earlier, listed order. */
  ghost predicate Resolves(listing: Listing, orders: map<Id, BrokerOrder>, f: Fill) {
    f.orderId in orders && var o := orders[f.orderId];
    && o.orderId == f.orderId && o.intentId == f.orderId && Listed(listing, o.contract)
    && o.createdAt <= f.createdAt && (o.submittedAt.Some? ==> o.submittedAt.value.t <= f.createdAt)
  }

  lemma MatchOne(listing: Listing, orders: map<Id, BrokerOrder>, done: seq<Fill>, m: MatchBook, f: Fill)
    requires Resolves(listing, orders, f) && MatchRead(listing, done, m)
    ensures TakeMatch(orders, m, f).Ok? && MatchRead(listing, done + [f], TakeMatch(orders, m, f).value)
  {
    var r := TakeMatch(orders, m, f);
    forall id: Id ensures Recorded(r.value.byOrder, id) == QuantityFor(done + [f], id) {
      assert Recorded(m.byOrder, id) == QuantityFor(done, id);
      QuantityAppend(done, f, id);
    }
  }

  lemma {:induction false} ReadMatches(listing: Listing, orders: map<Id, BrokerOrder>, ps: seq<(Fill, int)>)
    requires forall k :: 0 <= k < |ps| ==> Resolves(listing, orders, ps[k].0)
    ensures var r := Fold(MatchStep(orders), NoMatches, ps); r.Ok? && MatchRead(listing, Firsts(ps), r.value)
    decreases |ps|
  {
    if ps != [] {
      var n := |ps| - 1;
      ReadMatches(listing, orders, ps[..n]);
      MatchOne(listing, orders, Firsts(ps[..n]), Fold(MatchStep(orders), NoMatches, ps[..n]).value, ps[n].0);
      assert Firsts(ps) == Firsts(ps[..n]) + [ps[n].0];
    } else {
      assert Firsts(ps) == [];
    }
  }

  lemma FillResolves(cfg: Config, listing: Listing, s: Ledger, others: map<Id, Terms>, rows: seq<OrderRow>, b: OrderBook, k: nat, now: Instant)
    requires OrdersOk(cfg, listing, s.orders, now) && OrdersRead(s, others, rows, b) && FillsOk(s.orders, s.fills, now)
    requires k < |s.fills| && s.fills[k].orderId in b.orders
    ensures Resolves(listing, b.orders, s.fills[k])
  {
    assert FillOk(s.orders, k, s.fills[k], now);
    OrderFacts(cfg, listing, s.orders, s.fills[k].orderId, now);
    assert Version(Get(s.orders, s.fills[k].orderId).value, b.orders[s.fills[k].orderId]);
  }

  // ---- time order ---------------------------------------------------------------------------

  function Reverse<T>(xs: seq<T>): seq<T> {
    seq(|xs|, i requires 0 <= i < |xs| => xs[|xs| - 1 - i])
  }

  lemma {:induction false} ReverseSame<T>(xs: seq<T>)
    ensures multiset(Reverse(xs)) == multiset(xs)
    decreases |xs|
  {
    if xs != [] {
      ReverseSame(xs[1..]);
      assert xs == [xs[0]] + xs[1..];
      assert Reverse(xs) == Reverse(xs[1..]) + [xs[0]];
    }
  }

  lemma FillOrderTotal()
    ensures Preorder(FillOrderLe)
  {
  }

  lemma OldestFirst(d: Dict<Id, LedgerOrder>, fills: seq<Fill>, rows: seq<FillRow>, now: Instant)
    requires FillsOk(d, fills, now) && FillJournal(d, fills, rows) && AppendedInOrder(fills, rows)
    ensures var oldest := Reverse(ValuesOf(Keyed(rows)));
      && |oldest| == |fills| && (forall k :: 0 <= k < |fills| ==> oldest[k].0 == fills[k])
      && Sorted(FillOrderLe, oldest)
      && (forall i, j :: 0 <= i < j < |oldest| ==> oldest[i].1 < oldest[j].1)
  {
    var newest := ValuesOf(Keyed(rows));
    var oldest := Reverse(newest);
    forall k | 0 <= k < |fills| ensures oldest[k] == (fills[k], rows[|rows| - 1 - k].sequence) {
      assert oldest[k] == newest[|rows| - 1 - k];
    }
    forall i, j | 0 <= i < j < |oldest| ensures FillOrderLe(oldest[i], oldest[j]) {
      assert fills[i].createdAt <= fills[j].createdAt;
    }
  }

  lemma SequencesUntie(ps: seq<(Fill, int)>)
    requires forall i, j :: 0 <= i < j < |ps| ==> ps[i].1 < ps[j].1
    ensures Untied(FillOrderLe, ps)
  {
    forall x, y | x in ps && y in ps && FillOrderLe(x, y) && FillOrderLe(y, x) ensures x == y {
      var i :| 0 <= i < |ps| && ps[i] == x;
      var j :| 0 <= j < |ps| && ps[j] == y;
    }
  }

  /** Sorting the newest-first rows by time and append sequence gives the ledger's own order, if they
      were appended in it. */
  lemma ReadInOrder(d: Dict<Id, LedgerOrder>, fills: seq<Fill>, rows: seq<FillRow>, now: Instant)
    requires FillsOk(d, fills, now) && FillJournal(d, fills, rows) && AppendedInOrder(fills, rows)
    ensures Firsts(Sort(FillOrderLe, ValuesOf(Keyed(rows)))) == fills
  {
    var newest := ValuesOf(Keyed(rows));
    OldestFirst(d, fills, rows, now);
    SequencesUntie(Reverse(newest));
    FillOrderTotal();
    ReverseSame(newest);
    SortFinds(FillOrderLe, newest, Reverse(newest));
  }

  lemma {:induction false} InsertFirsts(x: (Fill, int), ps: seq<(Fill, int)>)
    ensures multiset(Firsts(Insert(FillOrderLe, x, ps))) == multiset(Firsts(ps)) + multiset{x.0}
    decreases |ps|
  {
    if ps == [] {
      assert Firsts([x]) == [x.0] && Firsts(ps) == [];
    } else if FillOrderLe(x, ps[0]) {
      assert Firsts([x] + ps) == [x.0] + Firsts(ps);
    } else {
      InsertFirsts(x, ps[1..]);
      var tail := Insert(FillOrderLe, x, ps[1..]);
      assert Firsts([ps[0]] + tail) == [ps[0].0] + Firsts(tail);
      assert Firsts(ps) == [ps[0].0] + Firsts(ps[1..]);
    }
  }

  lemma {:induction false} SortFirsts(ps: seq<(Fill, int)>)
    ensures multiset(Firsts(Sort(FillOrderLe, ps))) == multiset(Firsts(ps))
    decreases |ps|
  {
    if ps != [] {
      SortFirsts(ps[1..]);
      InsertFirsts(ps[0], Sort(FillOrderLe, ps[1..]));
      assert Firsts(ps) == [ps[0].0] + Firsts(ps[1..]);
    }
  }

  /** The fill under an id. */
  lemma {:induction false} FillUnder(d: Dict<Id, LedgerOrder>, fills: seq<Fill>, rows: seq<FillRow>, k: nat, now: Instant)
    requires FillsOk(d, fills, now) && multiset(FillsOf(rows)) == multiset(fills) && k < |rows|
    ensures 0 <= rows[k].fill.fillId < |fills| && fills[rows[k].fill.fillId] == rows[k].fill
  {
    assert FillsOf(rows)[k] in multiset(FillsOf(rows));
    assert rows[k].fill in fills;
    var j :| 0 <= j < |fills| && fills[j] == rows[k].fill;
    assert FillOk(d, j, fills[j], now);
  }

  lemma {:induction false} IdsDiffer(d: Dict<Id, LedgerOrder>, fills: seq<Fill>, rows: seq<FillRow>, now: Instant)
    requires FillsOk(d, fills, now) && multiset(FillsOf(rows)) == multiset(fills)
    ensures forall j, k :: 0 <= j < k < |rows| ==> rows[j].fill.fillId != rows[k].fill.fillId
  {
    forall i, j | 0 <= i < j < |fills| ensures fills[i] != fills[j] {
      assert FillOk(d, i, fills[i], now) && FillOk(d, j, fills[j], now);
    }
    DifferentAgain(fills, FillsOf(rows));
    forall j, k | 0 <= j < k < |rows| ensures rows[j].fill.fillId != rows[k].fill.fillId {
      FillUnder(d, fills, rows, j, now);
      FillUnder(d, fills, rows, k, now);
      assert FillsOf(rows)[j] != FillsOf(rows)[k];
    }
  }

  lemma {:induction false} SortedFrom(rows: seq<FillRow>, k: nat) returns (a: nat)
    requires k < |Sort(FillOrderLe, ValuesOf(Keyed(rows)))|
    ensures a < |rows| && Sort(FillOrderLe, ValuesOf(Keyed(rows)))[k] == (rows[a].fill, rows[a].sequence)
  {
    var pairs := ValuesOf(Keyed(rows));
    var sorted := Sort(FillOrderLe, pairs);
    FillOrderTotal();
    SortKeeps(FillOrderLe, pairs);
    assert sorted[k] in multiset(sorted);
    assert sorted[k] in pairs;
    a :| 0 <= a < |pairs| && pairs[a] == sorted[k];
  }

  lemma {:induction false} SortedDiffer(d: Dict<Id, LedgerOrder>, fills: seq<Fill>, rows: seq<FillRow>, now: Instant)
    requires FillsOk(d, fills, now) && multiset(FillsOf(rows)) == multiset(fills)
    ensures Different(Sort(FillOrderLe, ValuesOf(Keyed(rows)))) && Sorted(FillOrderLe, Sort(FillOrderLe, ValuesOf(Keyed(rows))))
  {
    var pairs := ValuesOf(Keyed(rows));
    IdsDiffer(d, fills, rows, now);
    forall i, j | 0 <= i < j < |pairs| ensures pairs[i] != pairs[j] { assert rows[i].fill.fillId != rows[j].fill.fillId; }
    FillOrderTotal();
    SortKeeps(FillOrderLe, pairs);
    DifferentAgain(pairs, Sort(FillOrderLe, pairs));
  }

  /** Sorting by time and append sequence keeps each instrument's fills in the ledger's order. */
  lemma {:induction false} SortedAt(d: Dict<Id, LedgerOrder>, fills: seq<Fill>, rows: seq<FillRow>, i: Id, now: Instant)
    requires FillsOk(d, fills, now) && FillJournal(d, fills, rows)
    ensures InOrderAt(d, Firsts(Sort(FillOrderLe, ValuesOf(Keyed(rows)))), i)
  {
    var sorted := Sort(FillOrderLe, ValuesOf(Keyed(rows)));
    var fs := Firsts(sorted);
    SortedDiffer(d, fills, rows, now);
    forall j, k | 0 <= j < k < |fs| && FillAt(d, fs[j], i) && FillAt(d, fs[k], i) ensures fs[j].fillId < fs[k].fillId {
      var a := SortedFrom(rows, j);
      var b := SortedFrom(rows, k);
      assert sorted[j] != sorted[k] && FillOrderLe(sorted[j], sorted[k]);
      RowsInOrder(d, fills, rows, i, a, b, now);
    }
  }

  lemma {:induction false} RowsInOrder(d: Dict<Id, LedgerOrder>, fills: seq<Fill>, rows: seq<FillRow>, i: Id, a: nat, b: nat, now: Instant)
    requires FillsOk(d, fills, now) && FillJournal(d, fills, rows) && a < |rows| && b < |rows| && a != b
    requires FillAt(d, rows[a].fill, i) && FillAt(d, rows[b].fill, i)
    requires FillOrderLe((rows[a].fill, rows[a].sequence), (rows[b].fill, rows[b].sequence))
    ensures rows[a].fill.fillId < rows[b].fill.fillId
  {
    FillUnder(d, fills, rows, a, now);
    FillUnder(d, fills, rows, b, now);
    IdsDiffer(d, fills, rows, now);
    if rows[a].fill.createdAt == rows[b].fill.createdAt {
      assert Tied(d, rows[b].fill, rows[a].fill);
    }
  }

  // ---- agreement ----------------------------------------------------------------------------

  lemma TradesAgree(s: Ledger, others: map<Id, Terms>, rows: seq<OrderRow>, b: OrderBook, ps: seq<(Fill, int)>, now: Instant)
    requires OrdersRead(s, others, rows, b) && FillsOk(s.orders, s.fills, now)
    requires forall id: Id :: Has(s.orders, id) ==> id in b.orders
    requires multiset(Firsts(ps)) == multiset(s.fills)
    ensures TradesOf(b.orders, ps) == LedgerTrades(s.orders, Firsts(ps))
  {
    forall k | 0 <= k < |ps| ensures TradesOf(b.orders, ps)[k] == LedgerTrades(s.orders, Firsts(ps))[k] {
      SameFill(s.fills, Firsts(ps), k);
      var j :| 0 <= j < |s.fills| && s.fills[j] == ps[k].0;
      assert FillOk(s.orders, j, s.fills[j], now);
      assert Version(Get(s.orders, s.fills[j].orderId).value, b.orders[s.fills[j].orderId]);
    }
  }

  lemma BooksReconcile(cfg: Config, listing: Listing, s: Ledger, others: map<Id, Terms>, rows: seq<OrderRow>, b: OrderBook, m: MatchBook, now: Instant)
    requires OrdersOk(cfg, listing, s.orders, now) && FillsOk(s.orders, s.fills, now)
    requires OrderJournal(s, others, rows) && OrdersRead(s, others, rows, b) && MatchRead(listing, s.fills, m)
    ensures Reconciled(b, m.byOrder) && forall id: Id :: Has(s.orders, id) ==> id in b.orders
  {
    forall id: Id | Has(s.orders, id) ensures id in b.orders && Recorded(b.filled, id) == Get(s.orders, id).value.published.filled {
      var k :| 0 <= k < |rows| && rows[k].order.orderId == id && rows[k].order.filled == Get(s.orders, id).value.published.filled;
    }
    forall id | id in b.orders
      ensures Recorded(m.byOrder, id) == Recorded(b.filled, id) && Recorded(m.byOrder, id) <= b.orders[id].quantity
    {
      OrderFacts(cfg, listing, s.orders, id, now);
      assert Recorded(m.byOrder, id) == QuantityFor(s.fills, id);
      if Has(s.orders, id) { assert TermsOf(b.orders[id]) == TermsOf(Get(s.orders, id).value.published); }
    }
  }

  lemma {:induction false} FillsAreRead(d: Dict<Id, LedgerOrder>, fills: seq<Fill>, rows: seq<FillRow>, now: Instant)
    requires FillsOk(d, fills, now) && FillJournal(d, fills, rows)
    ensures Fold(FillStep(now.t), [], rows) == Ok(Keyed(rows))
    ensures Firsts(ValuesOf(Keyed(rows))) == FillsOf(rows)
  {
    forall k | 0 <= k < |rows| ensures rows[k].fill.createdAt <= now.t {
      FillUnder(d, fills, rows, k, now);
      assert FillOk(d, rows[k].fill.fillId, rows[k].fill, now);
    }
    IdsDiffer(d, fills, rows, now);
    ReadFills(rows, now.t);
  }

  lemma AllOrdersRead(s: Ledger, others: map<Id, Terms>, rows: seq<OrderRow>, b: OrderBook)
    requires OrderJournal(s, others, rows) && OrdersRead(s, others, rows, b)
    ensures forall id: Id :: Has(s.orders, id) ==> id in b.orders
  {
    forall id: Id | Has(s.orders, id) ensures id in b.orders {
      var k :| 0 <= k < |rows| && rows[k].order.orderId == id && rows[k].order.filled == Get(s.orders, id).value.published.filled;
    }
  }

  lemma {:induction false} FillsAreMatched(cfg: Config, listing: Listing, s: Ledger, others: map<Id, Terms>, rows: seq<OrderRow>, b: OrderBook,
                        ps: seq<(Fill, int)>, now: Instant)
    requires OrdersOk(cfg, listing, s.orders, now) && FillsOk(s.orders, s.fills, now)
    requires OrderJournal(s, others, rows) && OrdersRead(s, others, rows, b) && multiset(Firsts(ps)) == multiset(s.fills)
    ensures var r := Fold(MatchStep(b.orders), NoMatches, ps); r.Ok? && Reconciled(b, r.value.byOrder)
  {
    AllOrdersRead(s, others, rows, b);
    forall k | 0 <= k < |ps| ensures Resolves(listing, b.orders, ps[k].0) {
      SameFill(s.fills, Firsts(ps), k);
      var j :| 0 <= j < |s.fills| && s.fills[j] == Firsts(ps)[k];
      assert FillOk(s.orders, j, s.fills[j], now);
      FillResolves(cfg, listing, s, others, rows, b, j, now);
    }
    ReadMatches(listing, b.orders, ps);
    var m := Fold(MatchStep(b.orders), NoMatches, ps).value;
    forall id: Id ensures Recorded(m.byOrder, id) == QuantityFor(s.fills, id) { QuantitySame(Firsts(ps), s.fills, id); }
    BooksReconcile(cfg, listing, s, others, rows, b, m, now);
  }

  // ---- the outcomes of each instrument ------------------------------------------------------

  lemma {:induction false} PnlAt(done: seq<ClosedOutcome>, i: Id)
    ensures DonePnl(done, i) == DonePnl(OutcomesAt(done, i), i)
    decreases |done|
  {
    if done != [] {
      var n := |done| - 1;
      PnlAt(done[..n], i);
      var mine := OutcomesAt(done[..n], i);
      if done[n].contract.instrument == i { assert (mine + [done[n]])[..|mine|] == mine; } else { assert mine + [] == mine; }
    }
  }

  lemma {:induction false} OutcomesMember(done: seq<ClosedOutcome>, o: ClosedOutcome)
    ensures o in OutcomesAt(done, o.contract.instrument) <==> o in done
    decreases |done|
  {
    if done != [] {
      var n := |done| - 1;
      OutcomesMember(done[..n], o);
      assert done == done[..n] + [done[n]];
    }
  }

  /** What is said of each instrument's outcomes says it of all. */
  lemma {:induction false} SameOutcomes(done: seq<ClosedOutcome>, other: seq<ClosedOutcome>)
    requires forall i: Id :: OutcomesAt(done, i) == OutcomesAt(other, i)
    ensures forall i: Id :: DonePnl(done, i) == DonePnl(other, i)
    ensures forall o: ClosedOutcome :: o in done <==> o in other
  {
    forall i: Id ensures DonePnl(done, i) == DonePnl(other, i) {
      PnlAt(done, i);
      PnlAt(other, i);
    }
    forall o: ClosedOutcome ensures o in done <==> o in other {
      OutcomesMember(done, o);
      OutcomesMember(other, o);
    }
  }

  /** On the journal of a tracked ledger the review never fails, recomputes for every instrument
      exactly the cycles of the ledger's own fills, and their results add up to the ledger's closed
      realized result; and it lists them in the ledger's order if the fills were appended in it. */
  lemma ReviewAgrees(cfg: Config, listing: Listing, s: Ledger, others: map<Id, Terms>, orderRows: seq<OrderRow>, fillRows: seq<FillRow>, now: Instant)
    requires OrdersOk(cfg, listing, s.orders, now) && Tracked(s, now)
    requires OrderJournal(s, others, orderRows) && FillJournal(s.orders, s.fills, fillRows)
    ensures Derived(orderRows, fillRows, now.t).Ok?
    ensures var done := Derived(orderRows, fillRows, now.t).value;
      && (forall i: Id :: OutcomesAt(done, i) == OutcomesAt(BookOf(s).value.done, i) && DonePnl(done, i) == ClosedSoFar(s, i))
      && (forall o :: o in done ==> OutcomeOk(o))
      && (AppendedInOrder(s.fills, fillRows) ==> done == BookOf(s).value.done)
  {
    var ps := ValuesOf(Keyed(fillRows));
    var fs := Firsts(Sort(FillOrderLe, ps));
    ReviewReads(cfg, listing, s, others, orderRows, fillRows, now);
    SortFirsts(ps);
    FillsAreRead(s.orders, s.fills, fillRows, now);
    forall i: Id ensures InOrderAt(s.orders, fs, i) { SortedAt(s.orders, s.fills, fillRows, i, now); }
    ReorderedFills(s, fs, now);
    SameOutcomes(Fold(TradeStep, NoCycles, LedgerTrades(s.orders, fs)).value.done, BookOf(s).value.done);
    forall i: Id ensures DonePnl(BookOf(s).value.done, i) == ClosedSoFar(s, i) { assert InStep(s, BookOf(s).value, now.t, i); }
    if AppendedInOrder(s.fills, fillRows) { ReadInOrder(s.orders, s.fills, fillRows, now); }
  }

  /** The rows lead to the cycles of the sorted fills. */
  lemma ReviewReads(cfg: Config, listing: Listing, s: Ledger, others: map<Id, Terms>, orderRows: seq<OrderRow>, fillRows: seq<FillRow>, now: Instant)
    requires OrdersOk(cfg, listing, s.orders, now) && FillsOk(s.orders, s.fills, now)
    requires OrderJournal(s, others, orderRows) && FillJournal(s.orders, s.fills, fillRows)
    ensures Derived(orderRows, fillRows, now.t) ==
      match Fold(TradeStep, NoCycles, LedgerTrades(s.orders, Firsts(Sort(FillOrderLe, ValuesOf(Keyed(fillRows))))))
      case Err(e) => Err(e) case Ok(book) => Ok(book.done)
  {
    ReadOrders(cfg, listing, s, others, orderRows, now);
    var b := Fold(OrderStep(now.t), NoOrders, orderRows).value;
    var ps := ValuesOf(Keyed(fillRows));
    FillsAreRead(s.orders, s.fills, fillRows, now);
    AllOrdersRead(s, others, orderRows, b);
    FillsAreMatched(cfg, listing, s, others, orderRows, b, ps, now);
    SortFirsts(ps);
    TradesAgree(s, others, orderRows, b, Sort(FillOrderLe, ps), now);
  }

  /** The same over runs: after every run in which expiry closed no position. */
  lemma {:induction false} RunsAreReviewed(cfg: Config, listing: Listing, start: Instant, calls: seq<Call>, others: map<Id, Terms>,
                        orderRows: seq<OrderRow>, fillRows: seq<FillRow>)
    requires Timely(start, calls) && CallsListed(listing, calls) && RunCovered(cfg, calls)
    requires var s := RunFrom(cfg, Fresh(cfg), calls).0; OrderJournal(s, others, orderRows) && FillJournal(s.orders, s.fills, fillRows)
    ensures var s := RunFrom(cfg, Fresh(cfg), calls).0; var r := Derived(orderRows, fillRows, EndOf(start, calls).t);
      r.Ok? && forall i: Id :: DonePnl(r.value, i) == ClosedSoFar(s, i)
  {
    RunsAreSafe(cfg, listing, start, calls);
    RunsAreTracked(cfg, listing, start, calls);
    ReviewAgrees(cfg, listing, RunFrom(cfg, Fresh(cfg), calls).0, others, orderRows, fillRows, EndOf(start, calls));
  }
}
