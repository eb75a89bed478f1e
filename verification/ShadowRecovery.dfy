/** What the dirty flag of the shadow broker guarantees: a clean broker is durable, a crash loses at
    most one operation, and what is durable can always be restored. */
module ShadowRecovery {
  import opened Dicts
  import opened Domain
  import opened LedgerState
  import opened LedgerInvariant
  import opened LedgerRuns
  import opened LedgerHistory
  import opened LedgerSnapshots
  import opened ShadowBroker

  // ---- recorded commands and the ledger's tables --------------------------------------------

  ghost predicate RecordOk(cfg: Config, r: Recorded) {
    && Distinct(r.commands)
    && (forall i :: 0 <= i < |r.commands| ==>
          var c := r.commands[i].1;
          && r.commands[i].0 == c.commandId && c.environment == cfg.environment && c.namespace == cfg.namespace
          && c.idempotencyKey in r.keys && r.keys[c.idempotencyKey] == c.commandId)
    && (forall k :: k in r.keys ==> Has(r.commands, r.keys[k]) && Get(r.commands, r.keys[k]).value.idempotencyKey == k)
  }

  predicate Knows(r: Recorded, c: Command) {
    Get(r.commands, c.commandId) == Some(c)
  }

  ghost predicate OrdersKnown(s: Ledger, r: Recorded) {
    forall i :: 0 <= i < |s.orders| ==>
      var c := s.orders[i].1.command;
      && Knows(r, c) && c.idempotencyKey == s.orders[i].0
      && c.idempotencyKey in s.orderByKey && s.orderByKey[c.idempotencyKey] == s.orders[i].0
  }

  ghost predicate KeyKnown(s: Ledger, r: Recorded, k: Id)
    requires k in s.orderByKey
  {
    && k in r.keys && Has(r.commands, r.keys[k]) && Has(s.orders, s.orderByKey[k])
    && var c, o := Get(r.commands, r.keys[k]).value, Get(s.orders, s.orderByKey[k]).value;
       c.instrument == o.published.contract.instrument && (c.action.PlaceOptionOrder? ==> c == o.command)
  }

  /** Every order and every key of the ledger goes back to a recorded command. */
  ghost predicate BooksKnown(cfg: Config, s: Ledger, r: Recorded) {
    RecordOk(cfg, r) && OrdersKnown(s, r) && forall k :: k in s.orderByKey ==> KeyKnown(s, r, k)
  }

  lemma {:induction false} CommandFacts(cfg: Config, r: Recorded, id: Id)
    requires RecordOk(cfg, r) && Has(r.commands, id)
    ensures var c := Get(r.commands, id).value;
      && c.commandId == id && c.environment == cfg.environment && c.namespace == cfg.namespace
      && c.idempotencyKey in r.keys && r.keys[c.idempotencyKey] == id
  {
    GetAt(r.commands, id);
  }

  lemma {:induction false} RecordKeeps(cfg: Config, s: Ledger, r: Recorded, c: Command, stored: bool)
    requires BooksKnown(cfg, s, r) && c.environment == cfg.environment && c.namespace == cfg.namespace
    requires Record(r, c, stored).Some?
    ensures var q := Record(r, c, stored).value;
      && BooksKnown(cfg, s, q) && Knows(q, c) && c.idempotencyKey in q.keys && q.keys[c.idempotencyKey] == c.commandId
  {
    var q := Record(r, c, stored).value;
    if Has(r.commands, c.commandId) {
      CommandFacts(cfg, r, c.commandId);
    } else if c.idempotencyKey in r.keys {
      CommandFacts(cfg, r, r.keys[c.idempotencyKey]);
    } else {
      NewRecord(cfg, r, c);
      forall k | k in s.orderByKey ensures KeyKnown(s, q, k) {
        assert KeyKnown(s, r, k);
        GetPut(r.commands, c.commandId, c, r.keys[k]);
      }
      forall i | 0 <= i < |s.orders| ensures Knows(q, s.orders[i].1.command) {
        assert Knows(r, s.orders[i].1.command);
        GetPut(r.commands, c.commandId, c, s.orders[i].1.command.commandId);
      }
      GetPut(r.commands, c.commandId, c, c.commandId);
    }
  }

  lemma {:induction false} NewRecord(cfg: Config, r: Recorded, c: Command)
    requires RecordOk(cfg, r) && c.environment == cfg.environment && c.namespace == cfg.namespace
    requires !Has(r.commands, c.commandId) && c.idempotencyKey !in r.keys
    ensures RecordOk(cfg, Recorded(Put(r.commands, c.commandId, c), r.keys[c.idempotencyKey := c.commandId]))
  {
    PutShape(r.commands, c.commandId, c);
    var q := Recorded(Put(r.commands, c.commandId, c), r.keys[c.idempotencyKey := c.commandId]);
    forall k | k in q.keys ensures Has(q.commands, q.keys[k]) && Get(q.commands, q.keys[k]).value.idempotencyKey == k {
      GetPut(r.commands, c.commandId, c, q.keys[k]);
    }
  }

  // ---- the operations keep it ---------------------------------------------------------------

  lemma FillOneKeys(cfg: Config, s: Ledger, q: Quote, id: Id, now: Instant)
    ensures FillOne(cfg, s, q, id, now).ledger.orderByKey == s.orderByKey
  {
  }

  lemma {:induction false} FillAllKeys(cfg: Config, s: Ledger, q: Quote, ids: seq<Id>, produced: seq<Fill>, now: Instant)
    ensures FillAll(cfg, s, q, ids, produced, now).ledger.orderByKey == s.orderByKey
    decreases |ids|
  {
    if ids != [] {
      var one := FillOne(cfg, s, q, ids[0], now);
      FillOneKeys(cfg, s, q, ids[0], now);
      if one.result.Ok? { FillAllKeys(cfg, one.ledger, q, ids[1..], produced + one.result.value, now); }
    }
  }

  lemma {:induction false} SettleAllKeys(s: Ledger, ids: seq<Id>, date: int, policy: Policy, prices: map<Id, real>, done: Expiration)
    ensures SettleAll(s, ids, date, policy, prices, done).ledger.orderByKey == s.orderByKey
    decreases |ids|
  {
    if ids != [] {
      var one := SettleOne(s, ids[0], date, policy, prices, done);
      if one.result.Ok? { SettleAllKeys(one.ledger, ids[1..], date, policy, prices, one.result.value); }
    }
  }

  lemma QuoteKeys(cfg: Config, s: Ledger, q: Quote, now: Instant)
    ensures ObserveQuote(cfg, s, q, now).ledger.orderByKey == s.orderByKey
  {
    var t := MarkPosition(s.(quotes := Put(s.quotes, q.contract.instrument, q)), q);
    FillAllKeys(cfg, t, q, KeysOf(t.orders), [], now);
  }

  lemma ExpireKeys(s: Ledger, onDate: Option<int>, policy: Policy, prices: map<Id, real>, now: Instant)
    ensures Expire(s, onDate, policy, prices, now).ledger.orderByKey == s.orderByKey
  {
    var date := match onDate case None => now.day case Some(d) => d;
    SettleAllKeys(s.(orders := ExpireOrders(s.orders, date)), KeysOf(s.positions), date, policy, prices,
                  Expiration(now.t, date, ExpiredIds(s.orders, date), [], 0.0, 0.0, policy));
  }

  lemma OtherKeys(cfg: Config, s: Ledger, call: Call)
    requires CommandOf(call.op).None?
    ensures Apply(cfg, s, call).0.orderByKey == s.orderByKey
  {
    match call.op
    case OpQuote(q) => QuoteKeys(cfg, s, q, call.now);
    case OpExpire(onDate, policy, prices) => ExpireKeys(s, onDate, policy, prices, call.now);
    case _ =>
  }

  /** Orders that only evolve keep their commands and contracts. */
  lemma {:induction false} EvolvedOrder(d: Dict<Id, LedgerOrder>, e: Dict<Id, LedgerOrder>, id: Id)
    requires Continues(d, e)
    ensures Has(d, id) <==> Has(e, id)
    ensures Has(d, id) ==> Evolves(Get(d, id).value, Get(e, id).value)
    decreases |d|
  {
    if d != [] && d[0].0 != id {
      forall i | 0 <= i < |d[1..]| ensures d[1..][i].0 == e[1..][i].0 && Evolves(d[1..][i].1, e[1..][i].1) {
        assert d[1..][i] == d[i + 1] && e[1..][i] == e[i + 1];
      }
      EvolvedOrder(d[1..], e[1..], id);
    }
  }

  lemma {:induction false} EvolvedBooks(cfg: Config, s: Ledger, t: Ledger, r: Recorded)
    requires BooksKnown(cfg, s, r) && Continues(s.orders, t.orders)
    requires forall k :: k in s.orderByKey ==> k in t.orderByKey && t.orderByKey[k] == s.orderByKey[k]
    requires forall k :: k in t.orderByKey && k !in s.orderByKey ==> KeyKnown(t, r, k)
    ensures BooksKnown(cfg, t, r)
  {
    forall i | 0 <= i < |t.orders|
      ensures Knows(r, t.orders[i].1.command) && t.orders[i].1.command.idempotencyKey == t.orders[i].0
      ensures t.orders[i].0 in t.orderByKey && t.orderByKey[t.orders[i].0] == t.orders[i].0
    {
      assert Evolves(s.orders[i].1, t.orders[i].1) && s.orders[i].0 == t.orders[i].0;
    }
    forall k | k in s.orderByKey ensures KeyKnown(t, r, k) {
      assert KeyKnown(s, r, k);
      EvolvedOrder(s.orders, t.orders, s.orderByKey[k]);
    }
  }

  lemma {:induction false} CancelBooks(cfg: Config, listing: Listing, s: Ledger, r: Recorded, c: Command, target: Id, now: Instant)
    requires Inv(cfg, listing, s, now) && BooksKnown(cfg, s, r) && Knows(r, c) && c.idempotencyKey in r.keys
    requires r.keys[c.idempotencyKey] == c.commandId
    ensures BooksKnown(cfg, Cancel(cfg, s, c, target).ledger, r)
  {
    var t := Cancel(cfg, s, c, target).ledger;
    CancelQuiet(cfg, listing, s, c, target, now);
    OrderFacts(cfg, listing, s.orders, target, now);
    EvolvedOrder(s.orders, t.orders, target);
    EvolvedBooks(cfg, s, t, r);
  }

  lemma {:induction false} AddedOrder(cfg: Config, s: Ledger, t: Ledger, r: Recorded, c: Command, o: LedgerOrder)
    requires BooksKnown(cfg, s, r) && Knows(r, c) && c.idempotencyKey in r.keys && r.keys[c.idempotencyKey] == c.commandId
    requires c.idempotencyKey !in s.orderByKey && o.command == c && o.published.contract.instrument == c.instrument
    requires t.orders == Put(s.orders, c.idempotencyKey, o) && t.orderByKey == s.orderByKey[c.idempotencyKey := c.idempotencyKey]
    ensures BooksKnown(cfg, t, r)
  {
    var key := c.idempotencyKey;
    GetAt(s.orders, key);
    PutShape(s.orders, key, o);
    assert t.orders == s.orders + [(key, o)];
    forall k | k in t.orderByKey ensures KeyKnown(t, r, k) {
      GetPut(s.orders, key, o, t.orderByKey[k]);
      if k != key { assert KeyKnown(s, r, k); }
    }
  }

  lemma SubmitBooks(cfg: Config, s: Ledger, r: Recorded, c: Command, contract: Contract, now: Instant)
    requires BooksKnown(cfg, s, r) && Knows(r, c) && c.idempotencyKey in r.keys
    requires r.keys[c.idempotencyKey] == c.commandId && c.orderIntentId == c.idempotencyKey
    ensures BooksKnown(cfg, Submit(cfg, s, c, contract, now).ledger, r)
  {
    var t := Submit(cfg, s, c, contract, now).ledger;
    if CommandFault(cfg, s, c, contract).None? && Duplicate(s, c).None? {
      var o := LedgerOrder(NewOrder(cfg, c, contract, SubmitReasons(s, c, contract, now) == [], now), c);
      AddedOrder(cfg, s, t, r, c, o);
    }
  }

  /** The intent id of a placement is derived from its idempotency key. */
  ghost predicate Proper(listing: Listing, q: Request) {
    q.Operate? ==> OpListed(listing, q.op) && (q.op.OpSubmit? ==> q.op.command.orderIntentId == q.op.command.idempotencyKey)
  }

  lemma ApplyBooks(cfg: Config, listing: Listing, s: Ledger, r: Recorded, op: Op, now: Instant)
    requires Inv(cfg, listing, s, now) && BooksKnown(cfg, s, r) && Proper(listing, Operate(op))
    requires CommandOf(op).Some? ==> var c := CommandOf(op).value;
      Knows(r, c) && c.idempotencyKey in r.keys && r.keys[c.idempotencyKey] == c.commandId
    ensures BooksKnown(cfg, Apply(cfg, s, Call(op, now)).0, r)
  {
    match op
    case OpSubmit(c, contract) => SubmitBooks(cfg, s, r, c, contract, now);
    case OpCancel(c, target) => CancelBooks(cfg, listing, s, r, c, target, now);
    case _ =>
      OtherKeys(cfg, s, Call(op, now));
      ApplyQuiet(cfg, listing, s, Call(op, now));
      EvolvedBooks(cfg, s, Apply(cfg, s, Call(op, now)).0, r);
  }

  // ---- the last durable snapshot ------------------------------------------------------------

  ghost predicate KeyAmong(cs: seq<Command>, k: Id) {
    exists i :: 0 <= i < |cs| && cs[i].idempotencyKey == k
  }

  lemma {:induction false} KeyMapDomain(cs: seq<Command>)
    ensures forall k :: k in KeyMap(cs) <==> KeyAmong(cs, k)
    decreases |cs|
  {
    if cs != [] {
      var n := |cs| - 1;
      KeyMapDomain(cs[..n]);
      forall k ensures k in KeyMap(cs) <==> KeyAmong(cs, k) {
        if KeyAmong(cs[..n], k) {
          var i :| 0 <= i < n && cs[..n][i].idempotencyKey == k;
          assert cs[i].idempotencyKey == k;
        }
        if KeyAmong(cs, k) && k != cs[n].idempotencyKey {
          var i :| 0 <= i < |cs| && cs[i].idempotencyKey == k;
          assert cs[..n][i].idempotencyKey == k;
        }
      }
    }
  }

  lemma {:induction false} KeyMapExact(cs: seq<Command>)
    requires forall i, j :: 0 <= i < j < |cs| ==> cs[i].idempotencyKey != cs[j].idempotencyKey
    ensures forall i :: 0 <= i < |cs| ==> cs[i].idempotencyKey in KeyMap(cs) && KeyMap(cs)[cs[i].idempotencyKey] == cs[i].commandId
    ensures |KeyMap(cs)| == |cs|
    decreases |cs|
  {
    if cs != [] {
      var n := |cs| - 1;
      KeyMapExact(cs[..n]);
      KeyMapDomain(cs[..n]);
      assert forall i :: 0 <= i < n ==> cs[..n][i] == cs[i];
      assert !KeyAmong(cs[..n], cs[n].idempotencyKey);
      assert KeyMap(cs) == KeyMap(cs[..n])[cs[n].idempotencyKey := cs[n].commandId];
    }
  }

  /** Exporting the recorded commands and reading them back is the identity. */
  lemma {:induction false} RecordRoundTrip(cfg: Config, r: Recorded)
    requires RecordOk(cfg, r)
    ensures FromValues(CommandKey, ValuesOf(r.commands)) == r.commands
    ensures KeyMap(ValuesOf(r.commands)) == r.keys && |r.keys| == |r.commands|
  {
    Rebuild(CommandKey, r.commands);
    var cs := ValuesOf(r.commands);
    KeyMapExact(cs);
    forall k | k in r.keys ensures k in KeyMap(cs) && KeyMap(cs)[k] == r.keys[k] {
      GetAt(r.commands, r.keys[k]);
      var i :| 0 <= i < |r.commands| && r.commands[i] == (r.keys[k], Get(r.commands, r.keys[k]).value);
      assert cs[i].idempotencyKey == k;
    }
    KeyMapDomain(cs);
    forall k | k in KeyMap(cs) ensures k in r.keys {
      assert KeyAmong(cs, k);
      var i :| 0 <= i < |cs| && cs[i].idempotencyKey == k;
      assert r.commands[i].1 == cs[i];
    }
    assert KeyMap(cs) == r.keys;
  }

  function Durable(cfg: Config, b: State): (Ledger, Recorded) {
    if b.journal == [] then (Fresh(cfg), Nothing)
    else (Rebuilt(b.journal[|b.journal| - 1]), RecordedIn(b.journal[|b.journal| - 1]))
  }

  function Held(b: State): (Ledger, Recorded) {
    (b.ledger, b.recorded)
  }

  /** A new process accepts the snapshot, now or later. */
  ghost predicate Restorable(cfg: Config, n: Snapshot, now: Instant) {
    CommandsRestorable(n) && forall later: Instant :: later.t >= now.t ==> RestoreFaultOf(cfg, n, later) == None
  }

  lemma {:induction false} ExportedCommands(cfg: Config, listing: Listing, b: State, now: Instant)
    requires Inv(cfg, listing, b.ledger, now) && BooksKnown(cfg, b.ledger, b.recorded)
    ensures var n := Exported(cfg, b, now);
      RecordedIn(n) == b.recorded && FromValues(OrderKey, n.orders) == b.ledger.orders && CommandsRestorable(n)
  {
    var n := Exported(cfg, b, now);
    RecordRoundTrip(cfg, b.recorded);
    Rebuild(OrderKey, b.ledger.orders);
    forall o | o in n.orders ensures OrderIsRecorded(n, o) {
      var i :| 0 <= i < |b.ledger.orders| && b.ledger.orders[i].1 == o;
      assert OrderOk(cfg, listing, b.ledger.orders[i].0, o, now);
    }
    forall k | k in n.orderByKey ensures KeyIsRecorded(n, k) { assert KeyKnown(b.ledger, b.recorded, k); }
  }

  lemma {:induction false} ExportedIsHeld(cfg: Config, listing: Listing, b: State, now: Instant)
    requires Inv(cfg, listing, b.ledger, now) && BooksKnown(cfg, b.ledger, b.recorded)
    ensures var n := Exported(cfg, b, now); (Rebuilt(n), RecordedIn(n)) == Held(b) && Restorable(cfg, n, now)
  {
    var n := Exported(cfg, b, now);
    var commands := ValuesOf(b.recorded.commands);
    ExportedCommands(cfg, listing, b, now);
    forall c | c in commands ensures c.environment == cfg.environment && c.namespace == cfg.namespace {
      var i :| 0 <= i < |b.recorded.commands| && b.recorded.commands[i].1 == c;
    }
    forall later: Instant | later.t >= now.t ensures RestoreFaultOf(cfg, n, later) == None {
      ExportIsRestored(cfg, listing, b.ledger, commands, now, later);
    }
    RebuiltExport(cfg, listing, b.ledger, commands, now);
  }

  // ---- one request --------------------------------------------------------------------------

  ghost predicate BrokerInv(cfg: Config, listing: Listing, recording: bool, b: State, now: Instant) {
    && Sound(cfg, listing, b, now)
    && LastRestorable(cfg, listing, b, now)
    && (!recording ==> !b.dirty)
    && (recording && !b.dirty ==> Durable(cfg, b) == Held(b))
  }

  /** The durable state afterwards is the one before, or the one now held. */
  ghost predicate OneAtRisk(cfg: Config, b: State, c: State) {
    Durable(cfg, c) == Durable(cfg, b) || Durable(cfg, c) == Held(c)
  }

  /** The part of the invariant that no write changes. */
  ghost predicate Sound(cfg: Config, listing: Listing, b: State, now: Instant) {
    Inv(cfg, listing, b.ledger, now) && BooksKnown(cfg, b.ledger, b.recorded)
  }

  lemma SameJournal(cfg: Config, b: State, c: State)
    requires c.journal == b.journal
    ensures Durable(cfg, c) == Durable(cfg, b)
  {
  }

  lemma Appended(cfg: Config, c: State, journal: seq<Snapshot>, n: Snapshot)
    requires c.journal == journal + [n]
    ensures c.journal[|c.journal| - 1] == n && Durable(cfg, c) == (Rebuilt(n), RecordedIn(n))
  {
  }

  /** What is durable is fit to start from. */
  ghost predicate LastRestorable(cfg: Config, listing: Listing, b: State, now: Instant) {
    && (b.journal != [] ==> Restorable(cfg, b.journal[|b.journal| - 1], now))
    && Inv(cfg, listing, Durable(cfg, b).0, now) && BooksKnown(cfg, Durable(cfg, b).0, Durable(cfg, b).1)
  }

  lemma WriteKeeps(cfg: Config, listing: Listing, b: State, w: Writing, now: Instant)
    requires Sound(cfg, listing, b, now) && LastRestorable(cfg, listing, b, now)
    ensures LastRestorable(cfg, listing, Persisted(cfg, true, b, w, now), now)
    ensures Durable(cfg, Persisted(cfg, true, b, w, now)) == if w.NotStored? then Durable(cfg, b) else Held(b)
  {
    var c := Persisted(cfg, true, b, w, now);
    if w.NotStored? {
      SameJournal(cfg, b, c);
    } else {
      ExportedIsHeld(cfg, listing, b, now);
      Appended(cfg, c, b.journal, Exported(cfg, b, now));
    }
  }

  lemma PersistKeeps(cfg: Config, listing: Listing, recording: bool, b: State, w: Writing, now: Instant)
    requires Sound(cfg, listing, b, now) && (!recording ==> !b.dirty)
    requires LastRestorable(cfg, listing, b, now)
    ensures BrokerInv(cfg, listing, recording, Persisted(cfg, recording, b, w, now), now)
    ensures OneAtRisk(cfg, b, Persisted(cfg, recording, b, w, now))
  {
    if recording { WriteKeeps(cfg, listing, b, w, now); }
  }

  ghost predicate OwnCommand(cfg: Config, op: Op) {
    CommandOf(op).Some? ==> CommandOf(op).value.environment == cfg.environment && CommandOf(op).value.namespace == cfg.namespace
  }

  lemma ChangeSound(cfg: Config, listing: Listing, b: State, op: Op, a: Awaits, now: Instant)
    requires Sound(cfg, listing, b, now) && Proper(listing, Operate(op)) && OwnCommand(cfg, op) && RecordFor(b, op, a).Some?
    ensures Sound(cfg, listing, b.(ledger := Apply(cfg, b.ledger, Call(op, now)).0, recorded := RecordFor(b, op, a).value), now)
  {
    var r := RecordFor(b, op, a).value;
    if CommandOf(op).Some? { RecordKeeps(cfg, b.ledger, b.recorded, CommandOf(op).value, a.commandStored); }
    StepKeeps(cfg, listing, b.ledger, Call(op, now));
    ApplyBooks(cfg, listing, b.ledger, r, op, now);
  }

  lemma FlaggedKeeps(cfg: Config, listing: Listing, recording: bool, b: State, c: State, now: Instant)
    requires BrokerInv(cfg, listing, recording, b, now) && Sound(cfg, listing, c, now) && c.journal == b.journal && c.dirty == recording
    ensures BrokerInv(cfg, listing, recording, c, now) && OneAtRisk(cfg, b, c)
  {
    SameJournal(cfg, b, c);
  }

  lemma MutationKeeps(cfg: Config, listing: Listing, recording: bool, b: State, op: Op, a: Awaits, now: Instant)
    requires BrokerInv(cfg, listing, recording, b, now) && Proper(listing, Operate(op)) && OwnCommand(cfg, op)
    ensures BrokerInv(cfg, listing, recording, Mutated(cfg, recording, b, op, a, now), now)
    ensures OneAtRisk(cfg, b, Mutated(cfg, recording, b, op, a, now))
  {
    var r := RecordFor(b, op, a);
    if r.None? {
      FlaggedKeeps(cfg, listing, recording, b, b.(dirty := recording), now);
    } else {
      var done := Apply(cfg, b.ledger, Call(op, now));
      var changed := b.(ledger := done.0, recorded := r.value, dirty := recording);
      ChangeSound(cfg, listing, b, op, a, now);
      assert Sound(cfg, listing, changed, now);
      if done.1.Refused? { FlaggedKeeps(cfg, listing, recording, b, changed, now); }
      else {
        SameJournal(cfg, b, changed);
        PersistKeeps(cfg, listing, recording, changed, a.writing, now);
      }
    }
  }

  lemma RequestKeeps(cfg: Config, listing: Listing, recording: bool, b: State, q: Request, a: Awaits, now: Instant)
    requires BrokerInv(cfg, listing, recording, b, now) && Proper(listing, q) && cfg.environment.Demo?
    ensures BrokerInv(cfg, listing, recording, Perform(cfg, recording, b, q, a, now), now)
    ensures OneAtRisk(cfg, b, Perform(cfg, recording, b, q, a, now))
    ensures b.dirty ==> Held(Perform(cfg, recording, b, q, a, now)) == Held(b)
  {
    match q
    case Flush => PersistKeeps(cfg, listing, recording, b, a.writing, now);
    case Operate(op) =>
      if Admissible(cfg, op, a) && !b.dirty && (CommandOf(op).Some? ==> WriteDenied(cfg, CommandOf(op).value, a)) {
        MutationKeeps(cfg, listing, recording, b, op, a, now);
      }
  }

  // ---- runs ---------------------------------------------------------------------------------

  /** A turn is a request, or the end of the process, wherever it stood, and the start of the next. */
  datatype Turn = Turn(request: Request, awaits: Awaits, now: Instant) | Restart(now: Instant)

  function TakeTurn(cfg: Config, recording: bool, b: State, t: Turn): State {
    match t
    case Turn(q, a, now) => Perform(cfg, recording, b, q, a, now)
    case Restart(now) => Restarted(cfg, b, now)
  }

  /** `RestartRecovers` shows that the new process never refuses to start. */
  function Restarted(cfg: Config, b: State, now: Instant): State {
    match Started(cfg, b.journal, now) case Some(c) => c case None => b
  }

  function RunBroker(cfg: Config, recording: bool, turns: seq<Turn>): State {
    if turns == [] then New(cfg)
    else TakeTurn(cfg, recording, RunBroker(cfg, recording, turns[..|turns| - 1]), turns[|turns| - 1])
  }

  ghost predicate ProperTurn(listing: Listing, t: Turn) {
    t.Turn? ==> Proper(listing, t.request)
  }

  ghost predicate TurnsOk(listing: Listing, start: Instant, turns: seq<Turn>) {
    && (forall i :: 0 <= i < |turns| ==> ProperTurn(listing, turns[i]) && NotBefore(turns[i].now, start))
    && (forall i, j :: 0 <= i < j < |turns| ==> NotBefore(turns[j].now, turns[i].now))
  }

  function TurnsEnd(start: Instant, turns: seq<Turn>): Instant {
    if turns == [] then start else turns[|turns| - 1].now
  }

  lemma {:induction false} BrokerLater(cfg: Config, listing: Listing, recording: bool, b: State, now: Instant, later: Instant)
    requires BrokerInv(cfg, listing, recording, b, now) && NotBefore(later, now)
    ensures BrokerInv(cfg, listing, recording, b, later)
  {
    InvLater(cfg, listing, b.ledger, now, later);
    InvLater(cfg, listing, Durable(cfg, b).0, now, later);
  }

  lemma RestartAccepted(cfg: Config, b: State, now: Instant)
    requires b.journal != [] ==> Restorable(cfg, b.journal[|b.journal| - 1], now)
    ensures Started(cfg, b.journal, now) == Some(State(Durable(cfg, b).0, Durable(cfg, b).1, false, b.journal))
  {
    if b.journal != [] { assert RestoreFaultOf(cfg, b.journal[|b.journal| - 1], now) == None; }
  }

  lemma DurableKeeps(cfg: Config, listing: Listing, recording: bool, b: State, c: State, now: Instant)
    requires BrokerInv(cfg, listing, recording, b, now) && c == State(Durable(cfg, b).0, Durable(cfg, b).1, false, b.journal)
    ensures BrokerInv(cfg, listing, recording, c, now) && Held(c) == Durable(cfg, b) == Durable(cfg, c)
  {
    SameJournal(cfg, b, c);
  }

  /** A restart gives the new process what was durable, and that is durable still. */
  lemma RestartKeeps(cfg: Config, listing: Listing, recording: bool, b: State, now: Instant)
    requires BrokerInv(cfg, listing, recording, b, now)
    ensures Started(cfg, b.journal, now).Some?
    ensures var c := Restarted(cfg, b, now);
      && BrokerInv(cfg, listing, recording, c, now)
      && !c.dirty && Held(c) == Durable(cfg, b) && Durable(cfg, c) == Durable(cfg, b)
  {
    RestartAccepted(cfg, b, now);
    DurableKeeps(cfg, listing, recording, b, State(Durable(cfg, b).0, Durable(cfg, b).1, false, b.journal), now);
  }

  lemma TurnKeeps(cfg: Config, listing: Listing, recording: bool, b: State, t: Turn, now: Instant)
    requires BrokerInv(cfg, listing, recording, b, now) && NotBefore(t.now, now) && ProperTurn(listing, t) && cfg.environment.Demo?
    ensures BrokerInv(cfg, listing, recording, TakeTurn(cfg, recording, b, t), t.now)
  {
    BrokerLater(cfg, listing, recording, b, now, t.now);
    match t
    case Turn(q, a, at) => RequestKeeps(cfg, listing, recording, b, q, a, at);
    case Restart(at) => RestartKeeps(cfg, listing, recording, b, at);
  }

  lemma NewKeeps(cfg: Config, listing: Listing, recording: bool, now: Instant)
    ensures BrokerInv(cfg, listing, recording, New(cfg), now)
  {
    FreshInv(cfg, listing, now);
  }

  lemma {:induction false} TurnsBefore(listing: Listing, start: Instant, turns: seq<Turn>)
    requires TurnsOk(listing, start, turns) && turns != []
    ensures TurnsOk(listing, start, turns[..|turns| - 1])
    ensures NotBefore(turns[|turns| - 1].now, TurnsEnd(start, turns[..|turns| - 1])) && ProperTurn(listing, turns[|turns| - 1])
  {
  }

  lemma {:induction false} BrokerRunsKeep(cfg: Config, listing: Listing, recording: bool, start: Instant, turns: seq<Turn>)
    requires cfg.environment.Demo? && TurnsOk(listing, start, turns)
    ensures BrokerInv(cfg, listing, recording, RunBroker(cfg, recording, turns), TurnsEnd(start, turns))
    decreases |turns|
  {
    if turns == [] {
      NewKeeps(cfg, listing, recording, start);
    } else {
      var n := |turns| - 1;
      TurnsBefore(listing, start, turns);
      BrokerRunsKeep(cfg, listing, recording, start, turns[..n]);
      TurnKeeps(cfg, listing, recording, RunBroker(cfg, recording, turns[..n]), turns[n], TurnsEnd(start, turns[..n]));
    }
  }

  /** Whenever the flag is clear the last recorded snapshot is the state in memory, commands and
      all, however the operations before ended and however often the process was started anew. */
  lemma {:induction false} CleanIsDurable(cfg: Config, listing: Listing, start: Instant, turns: seq<Turn>)
    requires cfg.environment.Demo? && TurnsOk(listing, start, turns) && !RunBroker(cfg, true, turns).dirty
    ensures Durable(cfg, RunBroker(cfg, true, turns)) == Held(RunBroker(cfg, true, turns))
  {
    BrokerRunsKeep(cfg, listing, true, start, turns);
  }

  /** The durable state is the one held after the first `j` requests, and at most the one
      operation after those is lost. */
  ghost predicate Loses(cfg: Config, turns: seq<Turn>, j: nat) {
    && j <= |turns|
    && var b := RunBroker(cfg, true, turns);
       && Durable(cfg, b) == Held(RunBroker(cfg, true, turns[..j]))
       && (j < |turns| ==> Held(RunBroker(cfg, true, turns[..j + 1])) == Held(b))
  }

  lemma {:induction false} LastTurn(cfg: Config, listing: Listing, start: Instant, turns: seq<Turn>)
    requires cfg.environment.Demo? && TurnsOk(listing, start, turns) && turns != []
    ensures var b, c := RunBroker(cfg, true, turns[..|turns| - 1]), RunBroker(cfg, true, turns);
      || Durable(cfg, c) == Held(c)
      || (Durable(cfg, c) == Durable(cfg, b) && if b.dirty then Held(c) == Held(b) else Durable(cfg, b) == Held(b))
  {
    var n := |turns| - 1;
    var b := RunBroker(cfg, true, turns[..n]);
    BrokerRunsKeep(cfg, listing, true, start, turns[..n]);
    BrokerLater(cfg, listing, true, b, TurnsEnd(start, turns[..n]), turns[n].now);
    match turns[n]
    case Turn(q, a, now) => RequestKeeps(cfg, listing, true, b, q, a, now);
    case Restart(now) => RestartKeeps(cfg, listing, true, b, now);
  }

  lemma {:induction false} LosesStill(cfg: Config, turns: seq<Turn>, j: nat)
    requires turns != [] && Loses(cfg, turns[..|turns| - 1], j)
    requires var b, c := RunBroker(cfg, true, turns[..|turns| - 1]), RunBroker(cfg, true, turns);
      Durable(cfg, c) == Durable(cfg, b) && Held(c) == Held(b)
    ensures Loses(cfg, turns, j)
  {
    var n := |turns| - 1;
    assert turns[..n][..j] == turns[..j];
    if j < n { assert turns[..n][..j + 1] == turns[..j + 1]; } else { assert turns[..j + 1] == turns; }
  }

  /** The length of the part of a run that a crash after it leaves. */
  lemma {:induction false} LossPoint(cfg: Config, listing: Listing, start: Instant, turns: seq<Turn>) returns (j: nat)
    requires cfg.environment.Demo? && TurnsOk(listing, start, turns)
    ensures Loses(cfg, turns, j)
    decreases |turns|
  {
    assert turns[..|turns|] == turns;
    if turns == [] {
      j := 0;
    } else {
      var n := |turns| - 1;
      LastTurn(cfg, listing, start, turns);
      var b, c := RunBroker(cfg, true, turns[..n]), RunBroker(cfg, true, turns);
      if Durable(cfg, c) == Held(c) {
        j := |turns|;
      } else if !b.dirty {
        j := n;
      } else {
        j := LossPoint(cfg, listing, start, turns[..n]);
        LosesStill(cfg, turns, j);
      }
    }
  }

  /** So a crash after any run, itself full of crashes, loses at most one operation. */
  lemma {:induction false} CrashLosesAtMostOne(cfg: Config, listing: Listing, start: Instant, turns: seq<Turn>)
    requires cfg.environment.Demo? && TurnsOk(listing, start, turns)
    ensures exists j :: Loses(cfg, turns, j)
  {
    var j := LossPoint(cfg, listing, start, turns);
  }

  /** `c` holds what was held after the first `j` requests, and at most one operation is lost. */
  ghost predicate GoesOn(cfg: Config, turns: seq<Turn>, j: nat, c: State) {
    Loses(cfg, turns, j) && Held(c) == Held(RunBroker(cfg, true, turns[..j]))
  }

  /** And the next process, whenever it starts and whatever restarts came before, is accepted and
      goes on from that state, clean. */
  lemma {:induction false} RestartRecovers(cfg: Config, listing: Listing, start: Instant, turns: seq<Turn>, now: Instant)
    requires cfg.environment.Demo? && TurnsOk(listing, start, turns) && NotBefore(now, TurnsEnd(start, turns))
    ensures Started(cfg, RunBroker(cfg, true, turns).journal, now).Some?
    ensures var c := Restarted(cfg, RunBroker(cfg, true, turns), now);
      !c.dirty && exists j :: GoesOn(cfg, turns, j, c)
  {
    var b := RunBroker(cfg, true, turns);
    BrokerRunsKeep(cfg, listing, true, start, turns);
    BrokerLater(cfg, listing, true, b, TurnsEnd(start, turns), now);
    RestartKeeps(cfg, listing, true, b, now);
    CrashLosesAtMostOne(cfg, listing, start, turns);
    var j :| Loses(cfg, turns, j);
    assert GoesOn(cfg, turns, j, Restarted(cfg, b, now));
  }
}
