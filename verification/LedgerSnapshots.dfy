/** Export of the ledger to a snapshot of tuples and dictionaries, the checks made before a
    snapshot is accepted, and the ledger rebuilt from it. */
module LedgerSnapshots {
  import opened Dicts
  import opened Domain
  import opened LedgerState
  import opened LedgerInvariant
  import opened LedgerRuns

  datatype Snapshot = Snapshot(
    recordedAt: int, environment: Environment, kind: AccountKind, namespace: string,
    initialCash: real, cash: real, modelVersion: string, orders: seq<LedgerOrder>,
    orderByKey: map<Id, Id>, positions: seq<Position>, fills: seq<Fill>, quotes: seq<Quote>,
    proposals: seq<Proposal>, rejections: map<Id, seq<Reason>>, deposits: seq<Deposit>,
    entries: map<int, seq<Id>>, realized: real, closed: Dict<Id, real>, commands: seq<Command>)

  datatype RestoreFault =
    | IdentityDiffers | InitialCashDiffers | FillModelDiffers | SnapshotFromFuture | DuplicateOrderIds
    | AbsentKeyTarget | UncorrelatedOrder | ForeignCommand | ForeignPosition | DuplicatePositions
    | AbsentFillOrder | FutureSnapshotQuote | InvalidBooks

  function OrderKey(o: LedgerOrder): Id { o.published.orderId }
  function PositionKey(p: Position): Id { p.contract.instrument }
  function QuoteKey(q: Quote): Id { q.contract.instrument }
  function ProposalKey(p: Proposal): Id { p.proposalId }

  ghost predicate IsLeast(m: Id, s: set<Id>) {
    m in s && forall x :: x in s ==> m <= x
  }

  lemma LeastJoins(s: set<Id>, a: Id, m: Id)
    requires a in s && IsLeast(m, s - {a})
    ensures IsLeast(if a <= m then a else m, s)
  {
    forall x | x in s ensures (if a <= m then a else m) <= x {
      assert x == a || x in s - {a};
    }
  }

  lemma {:induction false} LeastOf(s: set<Id>) returns (m: Id)
    requires s != {}
    ensures IsLeast(m, s)
    decreases |s|
  {
    var a :| a in s;
    var rest := s - {a};
    if rest == {} {
      assert forall x :: x in s ==> x == a || x in rest;
      m := a;
    } else {
      assert s == rest + {a};
      var n := LeastOf(rest);
      LeastJoins(s, a, n);
      m := if a <= n then a else n;
    }
  }

  lemma LeastExists(s: set<Id>)
    requires s != {}
    ensures exists m :: m in s && forall x :: x in s ==> m <= x
  {
    var m := LeastOf(s);
    assert IsLeast(m, s);
  }

  function SortedIds(s: set<Id>): seq<Id> {
    if s == {} then []
    else
      LeastExists(s);
      var m :| m in s && forall x :: x in s ==> m <= x;
      [m] + SortedIds(s - {m})
  }

  function SetOf(ids: seq<Id>): set<Id> {
    set x | x in ids
  }

  lemma {:induction false} SortedIdsHold(s: set<Id>)
    ensures SetOf(SortedIds(s)) == s
  {
    if s != {} {
      LeastExists(s);
      var m :| m in s && (forall x :: x in s ==> m <= x) && SortedIds(s) == [m] + SortedIds(s - {m});
      SortedIdsHold(s - {m});
      forall x ensures x in SetOf(SortedIds(s)) <==> x in s {
        assert x in SortedIds(s) <==> x == m || x in SortedIds(s - {m});
        assert x in SetOf(SortedIds(s - {m})) <==> x in SortedIds(s - {m});
      }
    }
  }

  function EntryLists(entries: map<int, set<Id>>): map<int, seq<Id>> {
    map d | d in entries :: SortedIds(entries[d])
  }

  function EntrySets(entries: map<int, seq<Id>>): map<int, set<Id>> {
    map d | d in entries :: SetOf(entries[d])
  }

  function Export(cfg: Config, s: Ledger, commands: seq<Command>, now: Instant): Snapshot {
    Snapshot(now.t, cfg.environment, cfg.kind, cfg.namespace, cfg.initialCash, s.cash, cfg.modelVersion,
             ValuesOf(s.orders), s.orderByKey, ValuesOf(s.positions), s.fills, ValuesOf(s.quotes),
             ValuesOf(s.proposals), s.rejections, s.deposits,
             EntryLists(s.entries), s.realized, s.closed, commands)
  }

  /** The ledger a snapshot describes. */
  function Rebuilt(n: Snapshot): Ledger {
    Ledger(n.cash, FromValues(OrderKey, n.orders), n.orderByKey, FromValues(PositionKey, n.positions), n.fills,
           FromValues(QuoteKey, n.quotes), FromValues(ProposalKey, n.proposals), n.rejections, n.deposits,
           EntrySets(n.entries), n.realized, n.closed)
  }

  predicate NoDuplicates(ids: seq<Id>) {
    forall i, j :: 0 <= i < j < |ids| ==> ids[i] != ids[j]
  }

  function OrderIds(os: seq<LedgerOrder>): seq<Id> {
    seq(|os|, i requires 0 <= i < |os| => os[i].published.orderId)
  }

  function InstrumentIds(ps: seq<Position>): seq<Id> {
    seq(|ps|, i requires 0 <= i < |ps| => ps[i].contract.instrument)
  }

  predicate Correlated(cfg: Config, o: LedgerOrder) {
    && o.published.environment == cfg.environment && o.command.environment == cfg.environment
    && o.command.namespace == cfg.namespace && o.published.intentId == o.command.orderIntentId
  }

  // ---- the ledger's own consistency check ---------------------------------------------------

  datatype Issue =
    | NegativeCash | ReservationsExceedCash | BadFilledQuantity(order: Id) | IncompleteFilled(order: Id)
    | EmptyPosition(instrument: Id) | Oversubscribed(instrument: Id)

  function OrderIssues(d: Dict<Id, LedgerOrder>): seq<Issue> {
    if d == [] then []
    else
      var p := d[0].1.published;
      (if 0 <= p.filled <= p.quantity then [] else [BadFilledQuantity(p.orderId)])
      + (if p.state.Filled? && p.filled != p.quantity then [IncompleteFilled(p.orderId)] else [])
      + OrderIssues(d[1..])
  }

  function PositionIssues(s: Ledger, d: Dict<Id, Position>): seq<Issue> {
    if d == [] then []
    else
      (if d[0].1.quantity <= 0 then [EmptyPosition(d[0].0)] else [])
      + (if AvailableQuantity(s, d[0].0) < 0 then [Oversubscribed(d[0].0)] else [])
      + PositionIssues(s, d[1..])
  }

  function Discrepancies(s: Ledger): seq<Issue> {
    (if s.cash < 0.0 then [NegativeCash] else [])
    + (if BuyingPower(s) < 0.0 then [ReservationsExceedCash] else [])
    + OrderIssues(s.orders) + PositionIssues(s, s.positions)
  }

  function RestoreFaultOf(cfg: Config, n: Snapshot, now: Instant): Option<RestoreFault> {
    var ids := OrderIds(n.orders);
    if n.environment != cfg.environment || n.kind != cfg.kind || n.namespace != cfg.namespace then Some(IdentityDiffers)
    else if n.initialCash != cfg.initialCash then Some(InitialCashDiffers)
    else if n.modelVersion != cfg.modelVersion then Some(FillModelDiffers)
    else if n.recordedAt > now.t then Some(SnapshotFromFuture)
    else if !NoDuplicates(ids) then Some(DuplicateOrderIds)
    else if exists k :: k in n.orderByKey && n.orderByKey[k] !in ids then Some(AbsentKeyTarget)
    else if exists o :: o in n.orders && !Correlated(cfg, o) then Some(UncorrelatedOrder)
    else if exists c :: c in n.commands && (c.environment != cfg.environment || c.namespace != cfg.namespace) then Some(ForeignCommand)
    else if exists p :: p in n.positions && p.environment != cfg.environment then Some(ForeignPosition)
    else if !NoDuplicates(InstrumentIds(n.positions)) then Some(DuplicatePositions)
    else if exists f :: f in n.fills && f.orderId !in ids then Some(AbsentFillOrder)
    else if exists q :: q in n.quotes && (q.observedAt > n.recordedAt || q.effectiveAt > n.recordedAt) then Some(FutureSnapshotQuote)
    else if Discrepancies(Rebuilt(n)) != [] then Some(InvalidBooks)
    else None
  }

  // ---- the consistency check is exactly the book part of the invariant ----------------------

  ghost predicate CleanBooks(s: Ledger) {
    && s.cash >= 0.0 && BuyingPower(s) >= 0.0
    && (forall i :: 0 <= i < |s.orders| ==> var p := s.orders[i].1.published;
          0 <= p.filled <= p.quantity && (p.state.Filled? ==> p.filled == p.quantity))
    && (forall i :: 0 <= i < |s.positions| ==> s.positions[i].1.quantity > 0 && AvailableQuantity(s, s.positions[i].0) >= 0)
  }

  lemma {:induction false} OrderIssuesExact(d: Dict<Id, LedgerOrder>)
    ensures OrderIssues(d) == [] <==> forall i :: 0 <= i < |d| ==> var p := d[i].1.published;
              0 <= p.filled <= p.quantity && (p.state.Filled? ==> p.filled == p.quantity)
  {
    if d != [] {
      OrderIssuesExact(d[1..]);
      assert forall i :: 0 < i < |d| ==> d[i] == d[1..][i - 1];
      assert OrderIssues(d) == [] ==> OrderIssues(d[1..]) == [];
    }
  }

  lemma {:induction false} PositionIssuesExact(s: Ledger, d: Dict<Id, Position>)
    ensures PositionIssues(s, d) == [] <==>
              forall i :: 0 <= i < |d| ==> d[i].1.quantity > 0 && AvailableQuantity(s, d[i].0) >= 0
  {
    if d != [] {
      PositionIssuesExact(s, d[1..]);
      assert forall i :: 0 < i < |d| ==> d[i] == d[1..][i - 1];
      assert PositionIssues(s, d) == [] ==> PositionIssues(s, d[1..]) == [];
    }
  }

  /** The check reports nothing exactly when the books are clean. */
  lemma DiscrepanciesExact(s: Ledger)
    ensures Discrepancies(s) == [] <==> CleanBooks(s)
  {
    OrderIssuesExact(s.orders);
    PositionIssuesExact(s, s.positions);
    var head := (if s.cash < 0.0 then [NegativeCash] else []) + (if BuyingPower(s) < 0.0 then [ReservationsExceedCash] else []);
    assert Discrepancies(s) == head + OrderIssues(s.orders) + PositionIssues(s, s.positions);
    assert |Discrepancies(s)| == |head| + |OrderIssues(s.orders)| + |PositionIssues(s, s.positions)|;
  }

  /** A ledger in its invariant always reconciles. */
  lemma ReachableReconciles(cfg: Config, listing: Listing, s: Ledger, now: Instant)
    requires Inv(cfg, listing, s, now)
    ensures Discrepancies(s) == []
  {
    NothingNegative(cfg, listing, s, now, 0);
    forall i | 0 <= i < |s.positions| ensures AvailableQuantity(s, s.positions[i].0) >= 0 {}
    DiscrepanciesExact(s);
  }

  // ---- round trip ---------------------------------------------------------------------------

  lemma RebuiltExport(cfg: Config, listing: Listing, s: Ledger, commands: seq<Command>, now: Instant)
    requires Inv(cfg, listing, s, now)
    ensures Rebuilt(Export(cfg, s, commands, now)) == s
  {
    Rebuild(OrderKey, s.orders);
    Rebuild(PositionKey, s.positions);
    Rebuild(QuoteKey, s.quotes);
    Rebuild(ProposalKey, s.proposals);
    var n := Export(cfg, s, commands, now);
    forall d | d in s.entries ensures Rebuilt(n).entries[d] == s.entries[d] { SortedIdsHold(s.entries[d]); }
    assert Rebuilt(n).entries == s.entries;
  }

  ghost predicate OwnCommands(cfg: Config, commands: seq<Command>) {
    forall c :: c in commands ==> c.environment == cfg.environment && c.namespace == cfg.namespace
  }

  lemma HasOrderId(s: Ledger, cfg: Config, listing: Listing, now: Instant, id: Id)
    requires OrdersOk(cfg, listing, s.orders, now) && Has(s.orders, id)
    ensures id in OrderIds(ValuesOf(s.orders))
  {
    GetAt(s.orders, id);
    var i :| 0 <= i < |s.orders| && s.orders[i] == (id, Get(s.orders, id).value);
    assert OrderIds(ValuesOf(s.orders))[i] == id;
  }

  lemma ExportedKeys(cfg: Config, listing: Listing, s: Ledger, now: Instant)
    requires OrdersOk(cfg, listing, s.orders, now) && PositionsOk(cfg, listing, s.positions)
    ensures NoDuplicates(OrderIds(ValuesOf(s.orders))) && NoDuplicates(InstrumentIds(ValuesOf(s.positions)))
    ensures forall o :: o in ValuesOf(s.orders) ==> Correlated(cfg, o)
    ensures forall p :: p in ValuesOf(s.positions) ==> p.environment == cfg.environment
  {
    var ids := OrderIds(ValuesOf(s.orders));
    forall i, j | 0 <= i < j < |ids| ensures ids[i] != ids[j] { assert ids[i] == s.orders[i].0 && ids[j] == s.orders[j].0; }
    var names := InstrumentIds(ValuesOf(s.positions));
    forall i, j | 0 <= i < j < |names| ensures names[i] != names[j] { assert names[i] == s.positions[i].0 && names[j] == s.positions[j].0; }
    forall o | o in ValuesOf(s.orders) ensures Correlated(cfg, o) {
      var i :| 0 <= i < |s.orders| && ValuesOf(s.orders)[i] == o;
      assert OrderOk(cfg, listing, s.orders[i].0, s.orders[i].1, now);
    }
    forall p | p in ValuesOf(s.positions) ensures p.environment == cfg.environment {
      var i :| 0 <= i < |s.positions| && ValuesOf(s.positions)[i] == p;
      assert PositionOk(cfg, listing, s.positions[i].0, s.positions[i].1);
    }
  }

  lemma ExportedRefs(cfg: Config, listing: Listing, s: Ledger, now: Instant)
    requires OrdersOk(cfg, listing, s.orders, now) && RefsOk(listing, s, now)
    ensures var ids := OrderIds(ValuesOf(s.orders));
      && (forall k :: k in s.orderByKey ==> s.orderByKey[k] in ids)
      && (forall f :: f in s.fills ==> f.orderId in ids)
    ensures forall q :: q in ValuesOf(s.quotes) ==> q.observedAt <= now.t && q.effectiveAt <= now.t
  {
    var ids := OrderIds(ValuesOf(s.orders));
    forall k | k in s.orderByKey ensures s.orderByKey[k] in ids { HasOrderId(s, cfg, listing, now, s.orderByKey[k]); }
    forall f | f in s.fills ensures f.orderId in ids {
      var i :| 0 <= i < |s.fills| && s.fills[i] == f;
      HasOrderId(s, cfg, listing, now, f.orderId);
    }
    forall q | q in ValuesOf(s.quotes) ensures q.observedAt <= now.t && q.effectiveAt <= now.t {
      var i :| 0 <= i < |s.quotes| && ValuesOf(s.quotes)[i] == q;
      assert s.quotes[i].1 == q;
    }
  }

  lemma Accepted(cfg: Config, n: Snapshot, now: Instant)
    requires n.environment == cfg.environment && n.kind == cfg.kind && n.namespace == cfg.namespace
    requires n.initialCash == cfg.initialCash && n.modelVersion == cfg.modelVersion && n.recordedAt <= now.t
    requires NoDuplicates(OrderIds(n.orders)) && NoDuplicates(InstrumentIds(n.positions))
    requires forall k :: k in n.orderByKey ==> n.orderByKey[k] in OrderIds(n.orders)
    requires forall o :: o in n.orders ==> Correlated(cfg, o)
    requires OwnCommands(cfg, n.commands)
    requires forall p :: p in n.positions ==> p.environment == cfg.environment
    requires forall f :: f in n.fills ==> f.orderId in OrderIds(n.orders)
    requires forall q :: q in n.quotes ==> q.observedAt <= n.recordedAt && q.effectiveAt <= n.recordedAt
    requires Discrepancies(Rebuilt(n)) == []
    ensures RestoreFaultOf(cfg, n, now) == None
  {
  }

  /** Every reachable ledger exports a snapshot that is accepted under the same binding at any
      later time and rebuilds exactly that ledger. */
  lemma ExportIsRestored(cfg: Config, listing: Listing, s: Ledger, commands: seq<Command>, now: Instant, later: Instant)
    requires Inv(cfg, listing, s, now) && later.t >= now.t && OwnCommands(cfg, commands)
    ensures RestoreFaultOf(cfg, Export(cfg, s, commands, now), later) == None
    ensures Rebuilt(Export(cfg, s, commands, now)) == s
  {
    RebuiltExport(cfg, listing, s, commands, now);
    ReachableReconciles(cfg, listing, s, now);
    ExportedKeys(cfg, listing, s, now);
    ExportedRefs(cfg, listing, s, now);
    Accepted(cfg, Export(cfg, s, commands, now), later);
  }

  lemma {:induction false} RunsCompose(cfg: Config, s: Ledger, first: seq<Call>, more: seq<Call>)
    ensures var a := RunFrom(cfg, s, first); var b := RunFrom(cfg, a.0, more);
      RunFrom(cfg, s, first + more) == (b.0, a.1 + b.1)
    decreases |more|
  {
    if more == [] {
      assert first + more == first;
      assert RunFrom(cfg, s, first).1 + [] == RunFrom(cfg, s, first).1;
    } else {
      var n := |more| - 1;
      RunsCompose(cfg, s, first, more[..n]);
      assert (first + more)[..|first + more| - 1] == first + more[..n];
      assert (first + more)[|first + more| - 1] == more[n];
      var a := RunFrom(cfg, s, first);
      var b := RunFrom(cfg, a.0, more[..n]);
      var last := Apply(cfg, b.0, more[n]);
      assert a.1 + (b.1 + [last.1]) == (a.1 + b.1) + [last.1];
    }
  }

  /** Stopping after any run, exporting, and continuing on a ledger restored at any later time is
      invisible: every later reply and every later state is that of the uninterrupted run. */
  lemma {:induction false} RestartIsInvisible(cfg: Config, listing: Listing, start: Instant, first: seq<Call>, more: seq<Call>,
                           commands: seq<Command>, saved: Instant, restored: Instant)
    requires Timely(start, first) && CallsListed(listing, first) && OwnCommands(cfg, commands)
    requires NotBefore(saved, EndOf(start, first)) && restored.t >= saved.t
    ensures var before := RunFrom(cfg, Fresh(cfg), first);
      var snapshot := Export(cfg, before.0, commands, saved);
      && RestoreFaultOf(cfg, snapshot, restored) == None
      && RunFrom(cfg, Fresh(cfg), first + more).0 == RunFrom(cfg, Rebuilt(snapshot), more).0
      && RunFrom(cfg, Fresh(cfg), first + more).1 == before.1 + RunFrom(cfg, Rebuilt(snapshot), more).1
  {
    RunsAreSafe(cfg, listing, start, first);
    var s := RunFrom(cfg, Fresh(cfg), first).0;
    InvLater(cfg, listing, s, EndOf(start, first), saved);
    ExportIsRestored(cfg, listing, s, commands, saved, restored);
    RunsCompose(cfg, Fresh(cfg), first, more);
  }
}
