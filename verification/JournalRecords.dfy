/** The immutable records and the order records of the durable execution store. */
module JournalRecords {
  import opened Dicts
  import opened Domain
  import opened AuditLog
  import opened Journal

  // ---- immutable records --------------------------------------------------------------------

  /** The unique keys of a table: each may be absent from a payload. */
  type Keys<!P> = seq<P -> Option<Id>>

  predicate SharesKey<P>(keys: Keys<P>, n: nat, p: P, q: P)
    requires n < |keys|
  {
    keys[n](p).Some? && keys[n](p) == keys[n](q)
  }

  ghost predicate Clash<P>(keys: Keys<P>, p: P, q: P) {
    exists n :: 0 <= n < |keys| && SharesKey(keys, n, p, q)
  }

  /** The unique indexes hold. */
  ghost predicate Unique<P>(keys: Keys<P>, rows: seq<Row<P>>) {
    forall i, j :: 0 <= i < j < |rows| ==> !Clash(keys, rows[i].payload, rows[j].payload)
  }

  ghost predicate Holds<P>(rows: seq<Row<P>>, p: P) {
    exists i :: 0 <= i < |rows| && rows[i].payload == p
  }

  /** Some row already stands under one of the payload's keys with other content. */
  ghost predicate Conflicting<P>(keys: Keys<P>, rows: seq<Row<P>>, p: P) {
    exists i :: 0 <= i < |rows| && Clash(keys, rows[i].payload, p) && rows[i].payload != p
  }

  ghost predicate Keyed<P>(keys: Keys<P>, p: P) {
    exists n :: 0 <= n < |keys| && keys[n](p).Some?
  }

  datatype SaveFault = ReusedKey | InsertFailed

  lemma {:induction false} FirstIsAny<P>(rows: seq<Row<P>>, keep: P -> bool)
    requires Numbered(rows)
    ensures Newest(rows, keep) == [] <==> forall i :: 0 <= i < |rows| ==> !keep(rows[i].payload)
    ensures Newest(rows, keep) != [] ==> keep(Newest(rows, keep)[0].payload) && Stands(rows, Newest(rows, keep)[0])
  {
    NewestStand(rows, keep);
    forall i | 0 <= i < |rows| && keep(rows[i].payload) ensures Newest(rows, keep) != [] { NewestComplete(rows, keep, i); }
    if Newest(rows, keep) != [] {
      var r := Newest(rows, keep)[0];
      assert keep(rows[r.sequence - 1].payload);
    }
  }

  class ImmutableTable<P(==)> {
    const repository: InMemoryAuditRepository<P>
    const keys: Keys<P>

    constructor (repository: InMemoryAuditRepository<P>, keys: Keys<P>)
      ensures this.repository == repository && this.keys == keys
    {
      this.repository, this.keys := repository, keys;
    }

    /** Look the payload up under each of its keys. */
    method Existing(p: P) returns (r: Result<bool, SaveFault>)
      requires Numbered(repository.rows) && Unique(keys, repository.rows)
      ensures r.Err? <==> Conflicting(keys, repository.rows, p)
      ensures r.Err? ==> r.error.ReusedKey?
      ensures r.Ok? ==> (r.value <==> Holds(repository.rows, p) && Keyed(keys, p))
    {
      var matched := false;
      for n := 0 to |keys|
        invariant forall i, m :: 0 <= i < |repository.rows| && 0 <= m < n && SharesKey(keys, m, repository.rows[i].payload, p) ==>
          repository.rows[i].payload == p
        invariant matched ==> Holds(repository.rows, p) && Keyed(keys, p)
        invariant Holds(repository.rows, p) && (exists m :: 0 <= m < n && keys[m](p).Some?) ==> matched
      {
        if keys[n](p).Some? {
          var key := keys[n];
          var found := repository.FindPayload(q => key(q) == key(p));
          FirstIsAny(repository.rows, q => key(q) == key(p));
          if found.Some? {
            var other := found.value.payload;
            assert SharesKey(keys, n, other, p);
            if other != p {
              assert Clash(keys, other, p);
              return Err(ReusedKey);
            }
            OnlyOne(keys, repository.rows, found.value, n);
            matched := true;
          }
        }
      }
      return Ok(matched);
    }

    /** Save once, in competition with other writers who may commit between the lookup and the
        insert: success means the payload stands, exactly when no row with other content holds one
        of its keys; the insert never fails for another reason. */
    method SaveImmutable(p: P, others: seq<P>) returns (r: Result<(), SaveFault>)
      requires Numbered(repository.rows) && Keyed(keys, p)
      requires Unique(keys, repository.rows) && Unique(keys, repository.rows + Number(|repository.rows|, others))
      modifies repository
      ensures Numbered(repository.rows) && Unique(keys, repository.rows)
      ensures var late := !Holds(old(repository.rows), p) && !Conflicting(keys, old(repository.rows), p);
        var seen := if late then old(repository.rows) + Number(|old(repository.rows)|, others) else old(repository.rows);
        && (r.Ok? <==> !Conflicting(keys, seen, p)) && (r.Err? ==> r.error.ReusedKey?)
        && repository.rows == if r.Ok? && !Holds(seen, p) then seen + [Row(|seen| + 1, p)] else seen
      ensures r.Ok? ==> Holds(repository.rows, p)
    {
      var first := Existing(p);
      if first.Err? { return Err(first.error); }
      if first.value { return Ok(()); }
      var log := new ExecutionJournal(repository);
      log.Others(others);
      ghost var seen := repository.rows;
      var again := Existing(p);
      if again.Ok? && !again.value {
        NoClash(keys, repository.rows, p);
        repository.Append(p);
        assert Holds(repository.rows, p) by { assert repository.rows[|seen|].payload == p; }
        return Ok(());
      }
      // the unique index refused the insert: whoever committed first decides
      var second := Existing(p);
      if second.Err? { return Err(second.error); }
      if second.value { return Ok(()); }
      return Err(InsertFailed);
    }
  }

  lemma OnlyOne<P>(keys: Keys<P>, rows: seq<Row<P>>, r: Row<P>, n: nat)
    requires Unique(keys, rows) && Stands(rows, r) && n < |keys| && keys[n](r.payload).Some?
    ensures forall i :: 0 <= i < |rows| && SharesKey(keys, n, rows[i].payload, r.payload) ==> rows[i] == r
    ensures Holds(rows, r.payload)
  {
    var k := r.sequence - 1;
    forall i | 0 <= i < |rows| && SharesKey(keys, n, rows[i].payload, r.payload) ensures rows[i] == r {
      if i < k { assert Clash(keys, rows[i].payload, rows[k].payload); }
      else if k < i {
        assert SharesKey(keys, n, rows[k].payload, rows[i].payload);
        assert Clash(keys, rows[k].payload, rows[i].payload);
      }
    }
  }

  lemma NoClash<P>(keys: Keys<P>, rows: seq<Row<P>>, p: P)
    requires Unique(keys, rows) && !Conflicting(keys, rows, p) && !Holds(rows, p)
    ensures Unique(keys, rows + [Row(|rows| + 1, p)])
  {
    var more := rows + [Row(|rows| + 1, p)];
    forall i, j | 0 <= i < j < |more| ensures !Clash(keys, more[i].payload, more[j].payload) {
      if j < |rows| { assert !Clash(keys, rows[i].payload, rows[j].payload); }
      else { assert rows[i].payload != p; }
    }
  }

  // ---- orders -------------------------------------------------------------------------------

  datatype OrderRecord = OrderRecord(
    intent: Id, orderId: Id, contract: Contract, side: Side, quantity: int, limit: real, filled: int, state: OrderState)

  predicate SameTerms(a: OrderRecord, b: OrderRecord) {
    a.contract == b.contract && a.side == b.side && a.quantity == b.quantity && a.limit == b.limit
  }

  datatype OrderFault = NoIntent | TermsChanged | IdentityChanged

  datatype Verdict = Refuse(fault: OrderFault) | Repeat | Store

  function Judge(known: bool, previous: Option<OrderRecord>, o: OrderRecord): Verdict {
    if !known then Refuse(NoIntent)
    else match previous
      case None => Store
      case Some(b) =>
        if b == o then Repeat
        else if !SameTerms(b, o) || o.filled < b.filled then Refuse(TermsChanged)
        else if b.orderId != o.orderId && !b.state.Submitting? && !b.state.SubmissionUnknown? then Refuse(IdentityChanged)
        else Store
  }

  function OfIntent(i: Id): OrderRecord -> bool {
    (o: OrderRecord) => o.intent == i
  }

  /** The order last recorded for an intent. */
  function LastOrder(rows: seq<Row<OrderRecord>>, i: Id): Option<OrderRecord> {
    var all := Newest(rows, OfIntent(i));
    if all == [] then None else Some(all[0].payload)
  }

  predicate Follows(a: OrderRecord, b: OrderRecord) {
    a.intent == b.intent ==> SameTerms(a, b) && a.filled <= b.filled
  }

  /** The exact terms of each intent's order never change and its filled quantity never shrinks. */
  ghost predicate Steady(rows: seq<Row<OrderRecord>>) {
    forall i, j :: 0 <= i < j < |rows| ==> Follows(rows[i].payload, rows[j].payload)
  }

  /** The record last appended for the intent stands behind every other one. */
  lemma LastOrderExact(rows: seq<Row<OrderRecord>>, i: Id)
    requires Numbered(rows) && Steady(rows)
    ensures LastOrder(rows, i).None? ==> forall k :: 0 <= k < |rows| ==> rows[k].payload.intent != i
    ensures LastOrder(rows, i).Some? ==>
      var b := LastOrder(rows, i).value;
      b.intent == i && forall k :: 0 <= k < |rows| && rows[k].payload.intent == i ==> Follows(rows[k].payload, b)
  {
    FirstIsAny(rows, OfIntent(i));
    forall k | LastOrder(rows, i).Some? && 0 <= k < |rows| && rows[k].payload.intent == i
      ensures Follows(rows[k].payload, LastOrder(rows, i).value)
    {
      var first := Newest(rows, OfIntent(i))[0];
      NewestDescend(rows, OfIntent(i));
      NewestComplete(rows, OfIntent(i), k);
      var n :| 0 <= n < |Newest(rows, OfIntent(i))| && Newest(rows, OfIntent(i))[n] == rows[k];
      assert k <= first.sequence - 1 && rows[first.sequence - 1] == first;
    }
  }

  /** With another process appending between the read and the append, an accepted record keeps the
      journal steady exactly when it also follows whatever came in between. */
  lemma StoredSteadily(rows: seq<Row<OrderRecord>>, others: seq<OrderRecord>, o: OrderRecord)
    requires Numbered(rows) && Steady(rows) && Judge(true, LastOrder(rows, o.intent), o).Store?
    ensures var seen := rows + Number(|rows|, others);
      Steady(seen + [Row(|seen| + 1, o)]) <==>
      Steady(seen) && forall k :: 0 <= k < |others| ==> Follows(others[k], o)
  {
    var seen := rows + Number(|rows|, others);
    var all := seen + [Row(|seen| + 1, o)];
    LastOrderExact(rows, o.intent);
    assert forall k :: 0 <= k < |rows| ==> Follows(rows[k].payload, o);
    assert forall k :: 0 <= k < |others| ==> seen[|rows| + k].payload == others[k] && all[|rows| + k] == seen[|rows| + k];
    assert forall k :: 0 <= k < |seen| ==> all[k] == seen[k];
    assert all[|seen|].payload == o;
    forall k | 0 <= k < |others| && Steady(all) ensures Follows(others[k], o) {
      assert Follows(all[|rows| + k].payload, all[|seen|].payload);
    }
    if Steady(all) {
      forall i, j | 0 <= i < j < |seen| ensures Follows(seen[i].payload, seen[j].payload) {
        assert Follows(all[i].payload, all[j].payload);
      }
    }
    if Steady(seen) && forall k :: 0 <= k < |others| ==> Follows(others[k], o) {
      forall i, j | 0 <= i < j < |all| ensures Follows(all[i].payload, all[j].payload) {
        if j < |seen| { assert Follows(seen[i].payload, seen[j].payload); }
        else if i >= |rows| { assert seen[i].payload == others[i - |rows|]; }
      }
    }
  }

  /** Two processes that both read an unfilled order may record a fill and then its loss: the lock
      around the read and the append is each process's own. */
  lemma RaceShrinksFills(o: OrderRecord)
    requires o.filled == 0
    ensures var rows := [Row(1, o)]; var other, mine := o.(filled := 2), o.(filled := 1);
      && Numbered(rows) && Steady(rows)
      && Judge(true, LastOrder(rows, o.intent), other).Store? && Judge(true, LastOrder(rows, o.intent), mine).Store?
      && !Steady(rows + [Row(2, other)] + [Row(3, mine)])
  {
    var rows := [Row(1, o)];
    FirstIsAny(rows, OfIntent(o.intent));
    assert rows[0].payload.intent == o.intent;
    assert LastOrder(rows, o.intent) == Some(o);
    var all := rows + [Row(2, o.(filled := 2))] + [Row(3, o.(filled := 1))];
    assert !Follows(all[1].payload, all[2].payload);
  }

  /** Row `i` is the last word on its intent. */
  ghost predicate Latest(log: seq<Row<OrderRecord>>, i: int) {
    0 <= i < |log| && forall j :: i < j < |log| ==> log[j].payload.intent != log[i].payload.intent
  }

  /** And no later last word carries the same order. */
  ghost predicate Current(log: seq<Row<OrderRecord>>, i: int) {
    Latest(log, i) && forall j :: i < j < |log| && Latest(log, j) ==> log[j].payload.orderId != log[i].payload.orderId
  }

  lemma {:induction false} AllNewest(rows: seq<Row<OrderRecord>>, all: OrderRecord -> bool)
    requires forall o :: all(o)
    ensures |Newest(rows, all)| == |rows| && forall k :: 0 <= k < |rows| ==> Newest(rows, all)[k] == rows[|rows| - 1 - k]
    decreases |rows|
  {
    if rows != [] {
      var n := |rows| - 1;
      AllNewest(rows[..n], all);
      assert Newest(rows, all) == [rows[n]] + Newest(rows[..n], all);
    }
  }

  ghost predicate IntentsFrom(log: seq<Row<OrderRecord>>, m: nat, intents: set<Id>) {
    forall i: Id :: i in intents <==> exists n :: m <= n < |log| && log[n].payload.intent == i
  }

  ghost predicate HasOrder(log: seq<Row<OrderRecord>>, n: int, id: Id) {
    Latest(log, n) && log[n].payload.orderId == id
  }

  ghost predicate OrdersFrom(log: seq<Row<OrderRecord>>, m: nat, orders: set<Id>) {
    forall i: Id :: i in orders <==> exists n :: m <= n && HasOrder(log, n, i)
  }

  ghost predicate ListedFrom(log: seq<Row<OrderRecord>>, m: int, result: seq<OrderRecord>, at: seq<int>) {
    && |at| == |result|
    && (forall l :: 0 <= l < |at| ==> Current(log, at[l]) && at[l] >= m && result[l] == log[at[l]].payload)
    && (forall k, l :: 0 <= k < l < |at| ==> at[k] > at[l])
    && (forall n :: m <= n && Current(log, n) ==> n in at)
  }

  lemma IntentSeen(log: seq<Row<OrderRecord>>, m: nat, intents: set<Id>)
    requires m < |log| && IntentsFrom(log, m + 1, intents)
    ensures IntentsFrom(log, m, intents + {log[m].payload.intent})
    ensures Latest(log, m) <==> log[m].payload.intent !in intents
  {
    forall i: Id ensures i in intents + {log[m].payload.intent} <==> exists n :: m <= n < |log| && log[n].payload.intent == i {
      if i in intents {
        var n :| m + 1 <= n < |log| && log[n].payload.intent == i;
      } else if n :| m <= n < |log| && log[n].payload.intent == i {
        assert n == m || i in intents;
      }
    }
  }

  lemma OrderSeen(log: seq<Row<OrderRecord>>, m: nat, orders: set<Id>)
    requires m < |log| && OrdersFrom(log, m + 1, orders) && Latest(log, m)
    ensures OrdersFrom(log, m, orders + {log[m].payload.orderId})
    ensures Current(log, m) <==> log[m].payload.orderId !in orders
  {
    var id := log[m].payload.orderId;
    assert HasOrder(log, m, id);
    forall i: Id ensures i in orders + {id} <==> exists n :: m <= n && HasOrder(log, n, i) {
      if i in orders {
        var n :| m + 1 <= n && HasOrder(log, n, i);
      } else if n :| m <= n && HasOrder(log, n, i) {
        assert n == m || i in orders;
      }
    }
    if id in orders {
      var n :| m + 1 <= n && HasOrder(log, n, id);
    } else {
      forall j | m < j < |log| && Latest(log, j) ensures log[j].payload.orderId != id { assert HasOrder(log, j, log[j].payload.orderId); }
    }
  }

  lemma OldSkipped(log: seq<Row<OrderRecord>>, m: nat, orders: set<Id>)
    requires m < |log| && OrdersFrom(log, m + 1, orders) && !Latest(log, m)
    ensures OrdersFrom(log, m, orders)
  {
    forall i: Id ensures i in orders <==> exists n :: m <= n && HasOrder(log, n, i) {
      assert forall n :: m <= n && HasOrder(log, n, i) ==> m + 1 <= n;
    }
  }

  lemma ListOne(log: seq<Row<OrderRecord>>, m: nat, result: seq<OrderRecord>, at: seq<int>)
    requires m < |log| && ListedFrom(log, m + 1, result, at)
    ensures if Current(log, m) then ListedFrom(log, m, result + [log[m].payload], at + [m]) else ListedFrom(log, m, result, at)
  {
  }

  class OrderTable {
    const repository: InMemoryAuditRepository<OrderRecord>

    constructor (repository: InMemoryAuditRepository<OrderRecord>)
      ensures this.repository == repository
    {
      this.repository := repository;
    }

    method SaveOrder(o: OrderRecord, known: bool, others: seq<OrderRecord>) returns (v: Verdict)
      requires Numbered(repository.rows)
      modifies repository
      ensures v == Judge(known, LastOrder(old(repository.rows), o.intent), o) && Numbered(repository.rows)
      ensures var seen := old(repository.rows) + Number(|old(repository.rows)|, others);
        repository.rows == if v.Store? then seen + [Row(|seen| + 1, o)] else old(repository.rows)
    {
      if !known { return Refuse(NoIntent); }
      var found := repository.FindPayload(OfIntent(o.intent));
      v := Judge(known, match found case None => None case Some(r) => Some(r.payload), o);
      if !v.Store? { return; }
      var log := new ExecutionJournal(repository);
      log.Others(others);
      repository.Append(o);
    }

    /** Walk the rows newest first, taking each intent and each order once. */
    method LatestOf(rows: seq<Row<OrderRecord>>, ghost log: seq<Row<OrderRecord>>)
      returns (result: seq<OrderRecord>, ghost at: seq<int>)
      requires |rows| == |log| && forall k :: 0 <= k < |rows| ==> rows[k] == log[|log| - 1 - k]
      ensures ListedFrom(log, 0, result, at)
    {
      var intents: set<Id>, orders: set<Id> := {}, {};
      result, at := [], [];
      for k := 0 to |rows|
        invariant IntentsFrom(log, |log| - k, intents) && OrdersFrom(log, |log| - k, orders)
        invariant ListedFrom(log, |log| - k, result, at)
      {
        var o := rows[k].payload;
        ghost var m := |log| - 1 - k;
        IntentSeen(log, m, intents);
        ListOne(log, m, result, at);
        if o.intent in intents {
          OldSkipped(log, m, orders);
          assert intents + {o.intent} == intents;
          continue;
        }
        OrderSeen(log, m, orders);
        intents := intents + {o.intent};
        if o.orderId !in orders {
          result := result + [o];
          at := at + [m];
        }
        assert o.orderId in orders ==> orders + {o.orderId} == orders;
        orders := orders + {o.orderId};
      }
    }

    /** The current order of every intent, newest first, from complete evidence: the rows of the log
        at the first page, whatever is appended meanwhile. `at` says which rows they are. */
    method ListLatestOrders(bound: int, others: seq<seq<OrderRecord>>)
      returns (r: Result<seq<OrderRecord>, ScanFault>, ghost at: seq<int>)
      requires Numbered(repository.rows)
      modifies repository
      ensures bound >= |old(repository.rows)| && bound >= 1 <==> r.Ok?
      ensures r.Ok? ==> ListedFrom(old(repository.rows), 0, r.value, at)
    {
      at := [];
      ghost var log := repository.rows;
      var all: OrderRecord -> bool := (o: OrderRecord) => true;
      AllNewest(log, all);
      var j := new ExecutionJournal(repository);
      var rows := j.Scan(all, bound, others);
      if rows.Err? { return Err(rows.error), []; }
      var result;
      result, at := LatestOf(rows.value, log);
      return Ok(result), at;
    }
  }
}
