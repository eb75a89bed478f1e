/** The simulated broker: the same ledger and recorder as the shadow broker, but the dirty flag is
    set only while persisting, not before the operation. */
module SimulatedBroker {
  import opened Dicts
  import opened Domain
  import opened LedgerState
  import opened LedgerInvariant
  import opened LedgerRuns
  import opened ShadowBroker
  import opened ShadowRecovery

  function Simulated(cfg: Config, b: State, op: Op, a: Awaits, now: Instant): State {
    var r := RecordFor(b, op, a);
    if r.None? then b
    else
      var done := Apply(cfg, b.ledger, Call(op, now));
      var changed := b.(ledger := done.0, recorded := r.value);
      if done.1.Refused? then changed else Persisted(cfg, true, changed, a.writing, now)
  }

  // ---- commands refused after they were recorded --------------------------------------------

  predicate IsNew(r: Recorded, c: Command) {
    !Has(r.commands, c.commandId) && c.idempotencyKey !in r.keys
  }

  /** What the ledger refuses of a cancellation whose key is new to it. */
  predicate CancelFault(cfg: Config, s: Ledger, c: Command, target: Id) {
    || c.action != CancelOptionOrder || c.environment != cfg.environment
    || Get(s.orders, target).None? || c.instrument != Get(s.orders, target).value.published.contract.instrument
  }

  lemma {:induction false} RecordChanges(r: Recorded, c: Command, stored: bool)
    requires Record(r, c, stored).Some?
    ensures Record(r, c, stored).value != r <==> IsNew(r, c)
    ensures IsNew(r, c) ==> stored
  {
    if IsNew(r, c) { GetPut(r.commands, c.commandId, c, c.commandId); }
  }

  /** A key new to the records is new to the ledger. */
  lemma NewIsUnused(cfg: Config, s: Ledger, r: Recorded, c: Command)
    requires BooksKnown(cfg, s, r) && IsNew(r, c)
    ensures Duplicate(s, c).None?
  {
    forall k | k in s.orderByKey ensures k != c.idempotencyKey { assert KeyKnown(s, r, k); }
  }

  lemma SubmitRefused(cfg: Config, s: Ledger, c: Command, contract: Contract, now: Instant)
    ensures var done := Apply(cfg, s, Call(OpSubmit(c, contract), now));
      && (done.1.Refused? ==> done.0 == s)
      && (Duplicate(s, c).None? ==> (done.1.Refused? <==> CommandFault(cfg, s, c, contract).Some?))
      && (!done.1.Refused? ==> c.environment == cfg.environment && c.namespace == cfg.namespace)
  {
  }

  lemma CancelRefused(cfg: Config, listing: Listing, s: Ledger, c: Command, target: Id, now: Instant)
    requires Inv(cfg, listing, s, now)
    ensures var done := Apply(cfg, s, Call(OpCancel(c, target), now));
      && (done.1.Refused? ==> done.0 == s)
      && (Duplicate(s, c).None? ==> (done.1.Refused? <==> CancelFault(cfg, s, c, target)))
      && (!done.1.Refused? ==> c.environment == cfg.environment)
  {
    OrderFacts(cfg, listing, s.orders, target, now);
  }

  // ---- expirations that stop half-way -------------------------------------------------------

  predicate Due(s: Ledger, id: Id, date: int) {
    Has(s.positions, id) && Get(s.positions, id).value.contract.expiration <= date
  }

  predicate Unpayable(prices: map<Id, real>, id: Id) {
    id in prices && prices[id] < 0.0
  }

  /** Some due position has a negative price. */
  ghost predicate Stops(s: Ledger, ids: seq<Id>, date: int, prices: map<Id, real>) {
    exists k :: 0 <= k < |ids| && Due(s, ids[k], date) && Unpayable(prices, ids[k])
  }

  /** Some due position comes before every due one with a negative price. */
  ghost predicate SettlesFirst(s: Ledger, ids: seq<Id>, date: int, prices: map<Id, real>) {
    exists j :: 0 <= j < |ids| && Due(s, ids[j], date) && forall i :: 0 <= i <= j && Due(s, ids[i], date) ==> !Unpayable(prices, ids[i])
  }

  ghost predicate SomeExpires(s: Ledger, date: int) {
    exists i :: 0 <= i < |s.orders| && Expires(s.orders[i].1, date)
  }

  /** Settling one position leaves the others as due as they were. */
  lemma SettleLeaves(s: Ledger, id: Id, date: int, policy: Policy, prices: map<Id, real>, done: Expiration)
    ensures var one := SettleOne(s, id, date, policy, prices, done);
      && (one.result.Err? <==> Due(s, id, date) && Unpayable(prices, id))
      && |one.ledger.positions| == (if Due(s, id, date) && !Unpayable(prices, id) then |s.positions| - 1 else |s.positions|)
      && (!Due(s, id, date) || Unpayable(prices, id) ==> one.ledger == s)
      && (forall j: Id :: j != id ==> (Due(one.ledger, j, date) <==> Due(s, j, date)))
  {
    if Due(s, id, date) && !Unpayable(prices, id) {
      DelCount(s.positions, id);
      forall j: Id | j != id ensures Get(Del(s.positions, id), j) == Get(s.positions, j) { GetDel(s.positions, id, j); }
    }
  }

  /** A settlement stops exactly at a due position with a negative price, and has then changed
      something exactly when another due position came first. */
  lemma {:induction false} SettlesExactly(s: Ledger, ids: seq<Id>, date: int, policy: Policy, prices: map<Id, real>, done: Expiration)
    requires forall i, j :: 0 <= i < j < |ids| ==> ids[i] != ids[j]
    ensures var r := SettleAll(s, ids, date, policy, prices, done);
      && (r.result.Err? <==> Stops(s, ids, date, prices))
      && |r.ledger.positions| <= |s.positions| && r.ledger.orders == s.orders
      && (if SettlesFirst(s, ids, date, prices) then |r.ledger.positions| < |s.positions| else r.ledger == s)
    decreases |ids|
  {
    if ids != [] {
      var one := SettleOne(s, ids[0], date, policy, prices, done);
      SettleLeaves(s, ids[0], date, policy, prices, done);
      Onward(s, one.ledger, ids, date, prices);
      if one.result.Ok? {
        SettlesExactly(one.ledger, ids[1..], date, policy, prices, one.result.value);
      }
    }
  }

  /** What the first position decides, and what the others do. */
  lemma {:induction false} Onward(s: Ledger, t: Ledger, ids: seq<Id>, date: int, prices: map<Id, real>)
    requires ids != [] && forall i, j :: 0 <= i < j < |ids| ==> ids[i] != ids[j]
    requires forall j: Id :: j != ids[0] ==> (Due(t, j, date) <==> Due(s, j, date))
    ensures Stops(s, ids, date, prices) <==> (Due(s, ids[0], date) && Unpayable(prices, ids[0])) || Stops(t, ids[1..], date, prices)
    ensures SettlesFirst(s, ids, date, prices) <==>
      if Due(s, ids[0], date) then !Unpayable(prices, ids[0]) else SettlesFirst(t, ids[1..], date, prices)
  {
    var more := ids[1..];
    assert forall i :: 0 <= i < |more| ==> more[i] == ids[i + 1] && (Due(t, more[i], date) <==> Due(s, more[i], date));
    if Stops(t, more, date, prices) {
      var k :| 0 <= k < |more| && Due(t, more[k], date) && Unpayable(prices, more[k]);
      assert Due(s, ids[k + 1], date);
    }
    if Stops(s, ids, date, prices) && !(Due(s, ids[0], date) && Unpayable(prices, ids[0])) {
      var k :| 0 <= k < |ids| && Due(s, ids[k], date) && Unpayable(prices, ids[k]);
      assert Due(t, more[k - 1], date);
    }
    OnwardFirst(s, t, ids, date, prices);
  }

  lemma {:induction false} OnwardFirst(s: Ledger, t: Ledger, ids: seq<Id>, date: int, prices: map<Id, real>)
    requires ids != [] && forall i :: 0 < i < |ids| ==> (Due(t, ids[i], date) <==> Due(s, ids[i], date))
    ensures SettlesFirst(s, ids, date, prices) <==>
      if Due(s, ids[0], date) then !Unpayable(prices, ids[0]) else SettlesFirst(t, ids[1..], date, prices)
  {
    var more := ids[1..];
    assert forall i :: 0 <= i < |more| ==> more[i] == ids[i + 1];
    if Due(s, ids[0], date) {
      if !Unpayable(prices, ids[0]) { assert SettlesFirst(s, ids, date, prices); }
    } else {
      if SettlesFirst(s, ids, date, prices) {
        var j :| 0 <= j < |ids| && Due(s, ids[j], date) && forall i :: 0 <= i <= j && Due(s, ids[i], date) ==> !Unpayable(prices, ids[i]);
        assert Due(t, more[j - 1], date);
      }
      if SettlesFirst(t, more, date, prices) {
        var j :| 0 <= j < |more| && Due(t, more[j], date) && forall i :: 0 <= i <= j && Due(t, more[i], date) ==> !Unpayable(prices, more[i]);
        forall i | 0 <= i <= j + 1 && Due(s, ids[i], date) ensures !Unpayable(prices, ids[i]) {
          if i > 0 { assert Due(t, more[i - 1], date); }
        }
        assert Due(s, ids[j + 1], date);
      }
    }
  }

  lemma OrdersChange(d: Dict<Id, LedgerOrder>, date: int)
    ensures ExpireOrders(d, date) == d <==> forall i :: 0 <= i < |d| ==> !Expires(d[i].1, date)
  {
    var e := ExpireOrders(d, date);
    if exists i :: 0 <= i < |d| && Expires(d[i].1, date) {
      var i :| 0 <= i < |d| && Expires(d[i].1, date);
      assert e[i].1.published.state.Expired? && IsOpen(d[i].1.published.state);
    } else {
      assert forall i :: 0 <= i < |d| ==> e[i] == d[i];
    }
  }

  function DateOf(onDate: Option<int>, now: Instant): int {
    match onDate case None => now.day case Some(d) => d
  }

  /** An expiration is refused after it has changed something. */
  ghost predicate HalfDone(s: Ledger, date: int, prices: map<Id, real>, now: Instant) {
    && date <= now.day && Stops(s, KeysOf(s.positions), date, prices)
    && (SomeExpires(s, date) || SettlesFirst(s, KeysOf(s.positions), date, prices))
  }

  lemma ExpireRefused(s: Ledger, onDate: Option<int>, policy: Policy, prices: map<Id, real>, now: Instant)
    requires Distinct(s.positions)
    ensures var r := Expire(s, onDate, policy, prices, now);
      r.result.Err? && r.ledger != s <==> HalfDone(s, DateOf(onDate, now), prices, now)
  {
    var date := DateOf(onDate, now);
    if date <= now.day {
      var t := s.(orders := ExpireOrders(s.orders, date));
      var ids := KeysOf(s.positions);
      OrdersChange(s.orders, date);
      assert forall id: Id :: Due(t, id, date) <==> Due(s, id, date);
      SettlesExactly(t, ids, date, policy, prices, Expiration(now.t, date, ExpiredIds(s.orders, date), [], 0.0, 0.0, policy));
      SameDue(s, t, ids, date, prices);
    }
  }

  lemma SameDue(s: Ledger, t: Ledger, ids: seq<Id>, date: int, prices: map<Id, real>)
    requires t.positions == s.positions
    ensures Stops(t, ids, date, prices) <==> Stops(s, ids, date, prices)
    ensures SettlesFirst(t, ids, date, prices) <==> SettlesFirst(s, ids, date, prices)
  {
    assert forall id: Id :: Due(t, id, date) <==> Due(s, id, date);
  }

  // ---- the clear flag -----------------------------------------------------------------------

  /** The operation will be refused after it has changed what the broker holds: seen before the
      call from the command, the books and the supplied prices. */
  ghost predicate Strands(cfg: Config, b: State, op: Op, a: Awaits, now: Instant) {
    match op
    case OpSubmit(c, contract) => IsNew(b.recorded, c) && a.commandStored && CommandFault(cfg, b.ledger, c, contract).Some?
    case OpCancel(c, target) => IsNew(b.recorded, c) && a.commandStored && CancelFault(cfg, b.ledger, c, target)
    case OpExpire(onDate, _, prices) => HalfDone(b.ledger, DateOf(onDate, now), prices, now)
    case _ => false
  }

  lemma OtherRefused(cfg: Config, listing: Listing, s: Ledger, op: Op, now: Instant)
    requires Inv(cfg, listing, s, now) && OpListed(listing, op) && (op.OpDeposit? || op.OpReview? || op.OpQuote?)
    ensures var done := Apply(cfg, s, Call(op, now)); done.1.Refused? ==> done.0 == s
  {
    if op.OpQuote? {
      var q := op.quote;
      if QuoteFault(s, q, now).None? && !QuoteRepeated(s, q) {
        QuoteSeen(cfg, listing, s, q, now);
        var t := MarkPosition(s.(quotes := Put(s.quotes, q.contract.instrument, q)), q);
        FillAllKeeps(cfg, listing, t, q, KeysOf(t.orders), [], now);
      }
    }
  }

  /** What a refused operation has changed, seen from its result and seen before the call. */
  lemma RefusalExactly(cfg: Config, listing: Listing, b: State, op: Op, a: Awaits, now: Instant)
    requires Inv(cfg, listing, b.ledger, now) && BooksKnown(cfg, b.ledger, b.recorded) && OpListed(listing, op)
    ensures Strands(cfg, b, op, a, now) <==>
      && RecordFor(b, op, a).Some? && Apply(cfg, b.ledger, Call(op, now)).1.Refused?
      && (Apply(cfg, b.ledger, Call(op, now)).0, RecordFor(b, op, a).value) != Held(b)
  {
    match op
    case OpSubmit(c, contract) =>
      SubmitRefused(cfg, b.ledger, c, contract, now);
      NewCommand(cfg, b, c, a.commandStored);
    case OpCancel(c, target) =>
      CancelRefused(cfg, listing, b.ledger, c, target, now);
      NewCommand(cfg, b, c, a.commandStored);
    case OpExpire(onDate, policy, prices) => ExpireRefused(b.ledger, onDate, policy, prices, now);
    case _ => OtherRefused(cfg, listing, b.ledger, op, now);
  }

  lemma NewCommand(cfg: Config, b: State, c: Command, stored: bool)
    requires BooksKnown(cfg, b.ledger, b.recorded)
    ensures IsNew(b.recorded, c) ==> Duplicate(b.ledger, c).None? && Record(b.recorded, c, stored).Some? == stored
    ensures Record(b.recorded, c, stored).Some? ==> (Record(b.recorded, c, stored).value != b.recorded <==> IsNew(b.recorded, c))
  {
    if IsNew(b.recorded, c) { NewIsUnused(cfg, b.ledger, b.recorded, c); }
    if Record(b.recorded, c, stored).Some? { RecordChanges(b.recorded, c, stored); }
  }

  lemma SimulatedPersists(cfg: Config, listing: Listing, b: State, op: Op, a: Awaits, now: Instant)
    requires BrokerInv(cfg, listing, true, b, now) && Proper(listing, Operate(op)) && OwnCommand(cfg, op)
    requires RecordFor(b, op, a).Some? && !Apply(cfg, b.ledger, Call(op, now)).1.Refused?
    ensures var after := Simulated(cfg, b, op, a, now); after.dirty || Durable(cfg, after) == Held(after)
  {
    var changed := b.(ledger := Apply(cfg, b.ledger, Call(op, now)).0, recorded := RecordFor(b, op, a).value);
    ChangeSound(cfg, listing, b, op, a, now);
    WriteKeeps(cfg, listing, changed, a.writing, now);
  }

  lemma AcceptedIsOwn(cfg: Config, listing: Listing, s: Ledger, op: Op, now: Instant)
    requires Inv(cfg, listing, s, now) && !Apply(cfg, s, Call(op, now)).1.Refused?
    requires op.OpCancel? ==> op.command.namespace == cfg.namespace
    ensures OwnCommand(cfg, op)
  {
    match op
    case OpSubmit(c, contract) => SubmitRefused(cfg, s, c, contract, now);
    case OpCancel(c, target) => CancelRefused(cfg, listing, s, c, target, now);
    case _ =>
  }

  /** A clear flag of the simulated broker means durable after every operation but these: a newly
      recorded command that the ledger then refuses, and an expiration stopped by a negative price
      after orders were expired or positions settled. */
  lemma CleanExactly(cfg: Config, listing: Listing, b: State, op: Op, a: Awaits, now: Instant)
    requires BrokerInv(cfg, listing, true, b, now) && !b.dirty && Proper(listing, Operate(op))
    requires op.OpCancel? ==> op.command.namespace == cfg.namespace
    ensures var after := Simulated(cfg, b, op, a, now);
      (after.dirty || Durable(cfg, after) == Held(after)) <==> !Strands(cfg, b, op, a, now)
  {
    RefusalExactly(cfg, listing, b, op, a, now);
    if RecordFor(b, op, a).Some? {
      if Apply(cfg, b.ledger, Call(op, now)).1.Refused? {
        SameJournal(cfg, b, Simulated(cfg, b, op, a, now));
      } else {
        AcceptedIsOwn(cfg, listing, b.ledger, op, now);
        SimulatedPersists(cfg, listing, b, op, a, now);
      }
    }
  }

  /** For instance a placement for the wrong instrument: the command is recorded in memory only,
      and the flag is clear. The shadow broker refuses to go on in the same situation. */
  lemma WrongInstrumentForgotten(cfg: Config, listing: Listing, b: State, c: Command, contract: Contract, a: Awaits, now: Instant)
    requires BrokerInv(cfg, listing, true, b, now) && !b.dirty && c.action.PlaceOptionOrder? && a.commandStored
    requires Proper(listing, Operate(OpSubmit(c, contract))) && IsNew(b.recorded, c) && c.instrument != contract.instrument
    ensures var after := Simulated(cfg, b, OpSubmit(c, contract), a, now); !after.dirty && Durable(cfg, after) != Held(after)
    ensures Mutated(cfg, true, b, OpSubmit(c, contract), a, now).dirty
  {
    CleanExactly(cfg, listing, b, OpSubmit(c, contract), a, now);
    SubmitRefused(cfg, b.ledger, c, contract, now);
    NewCommand(cfg, b, c, a.commandStored);
  }
}
