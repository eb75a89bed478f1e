/** The shadow broker: the ledger, the commands recorded for it, and a recorder that writes the
    whole state after each operation, guarded by a dirty flag. */
module ShadowBroker {
  import opened Dicts
  import opened Domain
  import opened LedgerState
  import opened LedgerRuns
  import opened LedgerSnapshots
  import opened LedgerService

  function CommandKey(c: Command): Id { c.commandId }

  // ---- recorded commands --------------------------------------------------------------------

  datatype Recorded = Recorded(commands: Dict<Id, Command>, keys: map<Id, Id>)

  /** Record a command once; `None` when its id or its key stands for another command, or when the
      durable recorder fails. Equality of commands is equality of their hashes. */
  function Record(r: Recorded, c: Command, stored: bool): Option<Recorded> {
    match Get(r.commands, c.commandId)
    case Some(existing) => if existing == c then Some(r) else None
    case None =>
      if c.idempotencyKey in r.keys then
        if Get(r.commands, r.keys[c.idempotencyKey]) == Some(c) then Some(r) else None
      else if stored then
        Some(Recorded(Put(r.commands, c.commandId, c), r.keys[c.idempotencyKey := c.commandId]))
      else None
  }

  // ---- one operation ------------------------------------------------------------------------

  /** How the state recorder's await ends. A crash or a cancellation there is one of the last two,
      depending on whether the write got through. */
  datatype Writing = Stored | NotStored | StoredButRaised

  /** How the other awaits of an operation end. */
  datatype Awaits = Awaits(validated: bool, denied: bool, commandStored: bool, writing: Writing)

  datatype Request = Operate(op: Op) | Flush

  datatype State = State(ledger: Ledger, recorded: Recorded, dirty: bool, journal: seq<Snapshot>)

  function Exported(cfg: Config, b: State, now: Instant): Snapshot {
    Export(cfg, b.ledger, ValuesOf(b.recorded.commands), now)
  }

  function Persisted(cfg: Config, recording: bool, b: State, w: Writing, now: Instant): State {
    if !recording then b
    else
      b.(dirty := !w.Stored?, journal := if w.NotStored? then b.journal else b.journal + [Exported(cfg, b, now)])
  }

  /** The order command an operation carries, if any. */
  function CommandOf(op: Op): Option<Command> {
    match op case OpSubmit(c, _) => Some(c) case OpCancel(c, _) => Some(c) case _ => None
  }

  /** What is refused before the lock is taken. */
  predicate Admissible(cfg: Config, op: Op, a: Awaits) {
    match op
    case OpSubmit(c, _) => c.action.PlaceOptionOrder? && a.validated
    case OpCancel(c, _) => c.action.CancelOptionOrder? && a.validated
    case OpReview(p) => p.environment.Demo?
    case _ => true
  }

  predicate WriteDenied(cfg: Config, c: Command, a: Awaits) {
    c.environment.Demo? && c.namespace == cfg.namespace && a.denied
  }

  function RecordFor(b: State, op: Op, a: Awaits): Option<Recorded> {
    match CommandOf(op) case None => Some(b.recorded) case Some(c) => Record(b.recorded, c, a.commandStored)
  }

  /** The mutation proper: under the lock, clean, with the flag set. An error after the flag keeps
      whatever was changed and leaves the flag set. */
  function Mutated(cfg: Config, recording: bool, b: State, op: Op, a: Awaits, now: Instant): State {
    var flagged := b.(dirty := recording);
    var r := RecordFor(b, op, a);
    if r.None? then flagged
    else
      var done := Apply(cfg, b.ledger, Call(op, now));
      var changed := flagged.(ledger := done.0, recorded := r.value);
      if done.1.Refused? then changed else Persisted(cfg, recording, changed, a.writing, now)
  }

  function Perform(cfg: Config, recording: bool, b: State, q: Request, a: Awaits, now: Instant): State {
    match q
    case Flush => Persisted(cfg, recording, b, a.writing, now)
    case Operate(op) =>
      if !Admissible(cfg, op, a) || b.dirty then b
      else if CommandOf(op).Some? && !WriteDenied(cfg, CommandOf(op).value, a) then b
      else Mutated(cfg, recording, b, op, a, now)
  }

  const Nothing := Recorded([], map[])

  function New(cfg: Config): State {
    State(Fresh(cfg), Nothing, false, [])
  }

  // ---- restoring ----------------------------------------------------------------------------

  function KeyMap(cs: seq<Command>): map<Id, Id> {
    if cs == [] then map[] else KeyMap(cs[..|cs| - 1])[cs[|cs| - 1].idempotencyKey := cs[|cs| - 1].commandId]
  }

  function RecordedIn(n: Snapshot): Recorded {
    Recorded(FromValues(CommandKey, n.commands), KeyMap(n.commands))
  }

  predicate OrderIsRecorded(n: Snapshot, o: LedgerOrder) {
    && Get(RecordedIn(n).commands, o.command.commandId) == Some(o.command)
    && o.command.idempotencyKey in n.orderByKey && n.orderByKey[o.command.idempotencyKey] == o.published.orderId
  }

  predicate KeyIsRecorded(n: Snapshot, k: Id)
    requires k in n.orderByKey
  {
    var r := RecordedIn(n);
    k in r.keys &&
    match (Get(r.commands, r.keys[k]), Get(FromValues(OrderKey, n.orders), n.orderByKey[k]))
    case (Some(c), Some(o)) => c.instrument == o.published.contract.instrument && (c.action.PlaceOptionOrder? ==> c == o.command)
    case _ => false
  }

  /** The further checks of a snapshot against its recorded commands. */
  predicate CommandsRestorable(n: Snapshot) {
    && |RecordedIn(n).commands| == |n.commands| == |RecordedIn(n).keys|
    && (forall o :: o in n.orders ==> OrderIsRecorded(n, o))
    && (forall k :: k in n.orderByKey ==> KeyIsRecorded(n, k))
  }

  /** A new process over what its predecessors have made durable: it takes over the last snapshot,
      or refuses to start; the flag is clear. */
  function Started(cfg: Config, past: seq<Snapshot>, now: Instant): Option<State> {
    if past == [] then Some(New(cfg))
    else
      var n := past[|past| - 1];
      if RestoreFaultOf(cfg, n, now).None? && CommandsRestorable(n) then Some(State(Rebuilt(n), RecordedIn(n), false, past)) else None
  }

  class RobinhoodShadowBroker {
    const ledger: ShadowLedger
    const recording: bool
    var recorded: Recorded
    var dirty: bool
    var journal: seq<Snapshot>   // what the recorder has made durable

    function Now(): State
      reads this, ledger
    {
      State(ledger.State(), recorded, dirty, journal)
    }

    constructor (cfg: Config, recording: bool)
      ensures Now() == New(cfg) && ledger.cfg == cfg && this.recording == recording && fresh(ledger)
    {
      ledger := new ShadowLedger(cfg);
      this.recording := recording;
      recorded, dirty, journal := Nothing, false, [];
    }

    method Persist(w: Writing, now: Instant) returns (ok: bool)
      modifies this
      ensures Now() == Persisted(ledger.cfg, recording, old(Now()), w, now) && ok == (!recording || w.Stored?)
    {
      if !recording { return true; }
      dirty := true;
      if w.NotStored? { return false; }
      journal := journal + [Exported(ledger.cfg, Now(), now)];
      if w.StoredButRaised? { return false; }
      dirty := false;
      return true;
    }

    method FlushState(a: Awaits, now: Instant) returns (ok: bool)
      modifies this
      ensures Now() == Perform(ledger.cfg, recording, old(Now()), Flush, a, now)
    {
      ok := Persist(a.writing, now);
    }

    method RecordCommand(c: Command, stored: bool) returns (ok: bool)
      modifies this`recorded
      ensures ok <==> Record(old(recorded), c, stored).Some?
      ensures recorded == if ok then Record(old(recorded), c, stored).value else old(recorded)
    {
      var existing := Get(recorded.commands, c.commandId);
      if existing.Some? { return existing.value == c; }
      if c.idempotencyKey in recorded.keys {
        return Get(recorded.commands, recorded.keys[c.idempotencyKey]) == Some(c);
      }
      if !stored { return false; }
      recorded := Recorded(Put(recorded.commands, c.commandId, c), recorded.keys[c.idempotencyKey := c.commandId]);
      return true;
    }

    method PlaceOrder(c: Command, contract: Contract, a: Awaits, now: Instant) returns (r: Option<BrokerOrder>)
      modifies this, ledger
      ensures Now() == Perform(ledger.cfg, recording, old(Now()), Operate(OpSubmit(c, contract)), a, now)
    {
      if !c.action.PlaceOptionOrder? || !a.validated || dirty || !WriteDenied(ledger.cfg, c, a) { return None; }
      dirty := recording;
      var known := RecordCommand(c, a.commandStored);
      if !known { return None; }
      var one := ledger.SubmitOrder(c, contract, now);
      if one.Err? { return None; }
      var ok := Persist(a.writing, now);
      return if ok then Some(one.value) else None;
    }

    method CancelOrder(c: Command, target: Id, a: Awaits, now: Instant) returns (r: Option<BrokerOrder>)
      modifies this, ledger
      ensures Now() == Perform(ledger.cfg, recording, old(Now()), Operate(OpCancel(c, target)), a, now)
    {
      if !c.action.CancelOptionOrder? || !a.validated || dirty || !WriteDenied(ledger.cfg, c, a) { return None; }
      dirty := recording;
      var known := RecordCommand(c, a.commandStored);
      if !known { return None; }
      var one := ledger.CancelOrder(c, target);
      if one.Err? { return None; }
      var ok := Persist(a.writing, now);
      return if ok then Some(one.value) else None;
    }

    method ReviewProposal(p: Proposal, a: Awaits, now: Instant) returns (r: Option<seq<Warning>>)
      modifies this, ledger
      ensures Now() == Perform(ledger.cfg, recording, old(Now()), Operate(OpReview(p)), a, now)
    {
      if !p.environment.Demo? || dirty { return None; }
      dirty := recording;
      var one := ledger.Review(p, now);
      if one.Err? { return None; }
      var ok := Persist(a.writing, now);
      return if ok then Some(one.value) else None;
    }

    method ConsumeQuote(q: Quote, a: Awaits, now: Instant) returns (r: Option<seq<Fill>>)
      modifies this, ledger
      ensures Now() == Perform(ledger.cfg, recording, old(Now()), Operate(OpQuote(q)), a, now)
    {
      if dirty { return None; }
      dirty := recording;
      var one := ledger.ConsumeQuote(q, now);
      if one.Err? { return None; }
      var ok := Persist(a.writing, now);
      return if ok then Some(one.value) else None;
    }

    method DepositCash(amount: real, reference: string, a: Awaits, now: Instant) returns (r: Option<Deposit>)
      modifies this, ledger
      ensures Now() == Perform(ledger.cfg, recording, old(Now()), Operate(OpDeposit(amount, reference)), a, now)
    {
      if dirty { return None; }
      dirty := recording;
      var one := ledger.DepositFunds(amount, reference, now);
      if one.Err? { return None; }
      var ok := Persist(a.writing, now);
      return if ok then Some(one.value) else None;
    }

    method ExpireOptions(onDate: Option<int>, policy: Policy, prices: map<Id, real>, a: Awaits, now: Instant)
      returns (r: Option<Expiration>)
      modifies this, ledger
      ensures Now() == Perform(ledger.cfg, recording, old(Now()), Operate(OpExpire(onDate, policy, prices)), a, now)
    {
      if dirty { return None; }
      dirty := recording;
      var one := ledger.ProcessExpirations(onDate, policy, prices, now);
      if one.Err? { return None; }
      var ok := Persist(a.writing, now);
      return if ok then Some(one.value) else None;
    }

    /** Take over the last snapshot of earlier processes; refused unless both checks pass. */
    method Restore(past: seq<Snapshot>, now: Instant) returns (ok: bool)
      requires Now() == New(ledger.cfg)
      modifies this, ledger
      ensures ok <==> Started(ledger.cfg, past, now).Some?
      ensures ok ==> Now() == Started(ledger.cfg, past, now).value
    {
      if past == [] { return true; }
      var n := past[|past| - 1];
      var fault := ledger.RestoreState(n, now);
      if fault.Some? || !CommandsRestorable(n) { return false; }
      recorded, journal := RecordedIn(n), past;
      return true;
    }
  }
}
