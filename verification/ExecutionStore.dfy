/** The durable execution store: records of reviews, decisions, intents, commands and orders, with
    the uniqueness of intents that makes it the arbiter between competing services. */
module ExecutionStore {
  import opened Dicts
  import opened Domain
  import opened OrderStates

  /** Fingerprints and intent ids are digests of exactly these fields; modelling them by the
      fields is what the injectivity of the digests allows. */
  datatype Fingerprint =
    | OrderPrint(environment: Environment, namespace: string, instrument: Id, side: Side, quantity: int, limit: real, proposalId: Id)
    | CancelPrint(namespace: string, target: OrderId, targetIntent: IntentId)

  datatype IntentId = IntentId(environment: Environment, namespace: string, action: Action, fingerprint: Fingerprint)

  datatype OrderId = Pending(intent: IntentId) | Given(number: nat)

  datatype Review = Review(id: Id, accepted: bool, sideEffectFree: bool)

  datatype Intent = Intent(id: IntentId, proposalId: Id, decisionId: Id, reviewId: Id, approvalId: Option<Id>, createdAt: int)

  datatype CommandId = CommandId(intent: IntentId, schema: Id)

  datatype BrokerCommand = BrokerCommand(
    id: CommandId, action: Action, instrument: Id, side: Side, quantity: int, limit: real, proposalId: Id, decisionId: Id,
    approvalId: Option<Id>, snapshotId: Id)

  datatype Order = Order(
    orderId: OrderId, intent: IntentId, environment: Environment, state: OrderState, contract: Contract, side: Side,
    quantity: int, limit: real, filled: int)

  datatype Transition = Transition(intent: IntentId, move: Move)

  datatype Mark =
    | DecisionMark(id: Id) | ReviewMark(review: Id) | IntentMark(intent: IntentId) | CommandMark(command: CommandId)
    | OrderMark(order: OrderId) | ReportMark | TransitionMark(of: IntentId) | NegativeMark(absent: IntentId)

  datatype Store = Store(
    decisions: map<Id, bool>, reviews: map<Id, Review>, intents: map<IntentId, Intent>, prints: map<Fingerprint, IntentId>,
    commands: Dict<CommandId, BrokerCommand>, orders: map<IntentId, Order>, transitions: seq<Transition>,
    negatives: set<IntentId>, audit: seq<Mark>)

  const NoRecords := Store(map[], map[], map[], map[], [], map[], [], {}, [])

  /** Two stores keep the same records under different rules for repeated intents: the reference
      store refuses every repetition, the journal accepts one with identical content. */
  datatype Uniqueness = Strict | RetryIdempotent

  function SaveDecision(s: Store, id: Id, allowed: bool): Store {
    s.(decisions := if id in s.decisions then s.decisions else s.decisions[id := allowed], audit := s.audit + [DecisionMark(id)])
  }

  function SaveReview(s: Store, r: Review): Store {
    s.(reviews := if r.id in s.reviews then s.reviews else s.reviews[r.id := r], audit := s.audit + [ReviewMark(r.id)])
  }

  function SaveReport(s: Store): Store {
    s.(audit := s.audit + [ReportMark])
  }

  /** An idempotency key is a digest of namespace, fingerprint and action and is therefore in use
      exactly with the fingerprint. */
  predicate InUse(s: Store, i: Intent) {
    i.id in s.intents || i.id.fingerprint in s.prints
  }

  /** Every record the intent collides with has the intent's own content. */
  predicate Repeats(s: Store, i: Intent) {
    && (i.id in s.intents ==> s.intents[i.id] == i)
    && (i.id.fingerprint in s.prints ==> s.prints[i.id.fingerprint] in s.intents && s.intents[s.prints[i.id.fingerprint]] == i)
  }

  function SaveIntent(rule: Uniqueness, s: Store, i: Intent): Option<Store> {
    if !InUse(s, i) then
      Some(s.(intents := s.intents[i.id := i], prints := s.prints[i.id.fingerprint := i.id], audit := s.audit + [IntentMark(i.id)]))
    else if rule.RetryIdempotent? && Repeats(s, i) then Some(s)
    else None
  }

  predicate Matches(i: Intent, c: BrokerCommand) {
    c.action == i.id.action && c.proposalId == i.proposalId && c.decisionId == i.decisionId && c.approvalId == i.approvalId
  }

  /** The journal keys a command by its own id, by its intent and, through the intent, by the
      fingerprint and the idempotency key; the reference store by its own id alone. */
  predicate Occupied(rule: Uniqueness, s: Store, c: BrokerCommand) {
    Has(s.commands, c.id) || (rule.RetryIdempotent? && CommandIn(s.commands, c.id.intent).Some?)
  }

  predicate CommandRepeats(s: Store, c: BrokerCommand) {
    && (Has(s.commands, c.id) ==> Get(s.commands, c.id) == Some(c))
    && (CommandIn(s.commands, c.id.intent).Some? ==> CommandIn(s.commands, c.id.intent) == Some(c))
  }

  function SaveCommand(rule: Uniqueness, s: Store, c: BrokerCommand): Option<Store> {
    if c.id.intent !in s.intents || (rule.RetryIdempotent? && !Matches(s.intents[c.id.intent], c)) then None
    else if !Occupied(rule, s, c) then
      Some(s.(commands := Put(s.commands, c.id, c), audit := s.audit + [CommandMark(c.id)]))
    else if rule.RetryIdempotent? && CommandRepeats(s, c) then Some(s)
    else None
  }

  function SaveOrder(s: Store, o: Order): Option<Store> {
    if o.intent !in s.intents then None
    else Some(s.(orders := s.orders[o.intent := o], audit := s.audit + [OrderMark(o.orderId)]))
  }

  function NoteTransition(s: Store, t: Transition): Store {
    s.(transitions := s.transitions + [t], audit := s.audit + [TransitionMark(t.intent)])
  }

  function NoteNegative(s: Store, i: IntentId): Store {
    s.(negatives := s.negatives + {i}, audit := s.audit + [NegativeMark(i)])
  }

  function FindByPrint(s: Store, p: Fingerprint): Option<Intent> {
    if p in s.prints && s.prints[p] in s.intents then Some(s.intents[s.prints[p]]) else None
  }

  function CommandIn(d: Dict<CommandId, BrokerCommand>, i: IntentId): Option<BrokerCommand> {
    if d == [] then None else if d[0].1.id.intent == i then Some(d[0].1) else CommandIn(d[1..], i)
  }

  /** Both indexes agree with the intents they index, and orders belong to durable intents. */
  ghost predicate Indexed(s: Store) {
    && (forall i :: i in s.intents ==> s.intents[i].id == i && i.fingerprint in s.prints && s.prints[i.fingerprint] == i)
    && (forall p :: p in s.prints ==> s.prints[p] in s.intents && s.prints[p].fingerprint == p)
    && (forall i :: i in s.orders ==> i in s.intents)
  }

  /** A fingerprint never gets a second intent, and repeating is refused unless nothing differs. */
  lemma OneIntentPerPrint(rule: Uniqueness, s: Store, i: Intent)
    requires Indexed(s)
    ensures SaveIntent(rule, s, i).Some? <==>
      FindByPrint(s, i.id.fingerprint).None? || (rule.RetryIdempotent? && FindByPrint(s, i.id.fingerprint) == Some(i))
  {
    if InUse(s, i) {
      assert i.id.fingerprint in s.prints;
    }
  }

  lemma NewIntent(rule: Uniqueness, s: Store, i: Intent)
    requires Indexed(s) && FindByPrint(s, i.id.fingerprint).None?
    ensures SaveIntent(rule, s, i).Some? && i.id !in s.orders
    ensures Indexed(SaveIntent(rule, s, i).value)
    ensures var t := SaveIntent(rule, s, i).value;
      forall p :: FindByPrint(t, p) == if p == i.id.fingerprint then Some(i) else FindByPrint(s, p)
  {
    assert !InUse(s, i);
    var t := SaveIntent(rule, s, i).value;
    forall p ensures FindByPrint(t, p) == if p == i.id.fingerprint then Some(i) else FindByPrint(s, p) {
      if p in s.prints { assert s.prints[p] in s.intents; }
    }
  }

  ghost predicate CommandsKeyed(d: Dict<CommandId, BrokerCommand>) {
    forall j :: 0 <= j < |d| ==> d[j].0 == d[j].1.id
  }

  lemma {:induction false} FirstOfIntent(d: Dict<CommandId, BrokerCommand>, c: BrokerCommand)
    requires CommandsKeyed(d)
    ensures Has(d, c.id) ==> CommandIn(d, c.id.intent).Some?
    ensures CommandIn(d, c.id.intent) == Some(c) ==> Get(d, c.id) == Some(c)
  {
    if d != [] {
      assert CommandsKeyed(d[1..]) by { assert forall j :: 0 <= j < |d[1..]| ==> d[1..][j] == d[j + 1]; }
      FirstOfIntent(d[1..], c);
    }
  }

  /** The journal accepts a command exactly when it matches its intent and the intent has no command
      yet, under whatever capability schema, or this very one. */
  lemma {:induction false} OneCommandPerIntent(s: Store, c: BrokerCommand)
    requires CommandsKeyed(s.commands)
    ensures SaveCommand(RetryIdempotent, s, c).Some? <==>
      && c.id.intent in s.intents && Matches(s.intents[c.id.intent], c)
      && (CommandIn(s.commands, c.id.intent).None? || CommandIn(s.commands, c.id.intent) == Some(c))
  {
    FirstOfIntent(s.commands, c);
  }

  /** The reference store. */
  class InMemoryExecutionStore {
    var decisions: map<Id, bool>
    var reviews: map<Id, Review>
    var intents: map<IntentId, Intent>
    var prints: map<Fingerprint, IntentId>
    var commands: Dict<CommandId, BrokerCommand>
    var orders: map<IntentId, Order>
    var transitions: seq<Transition>
    var negatives: set<IntentId>
    var audit: seq<Mark>

    function State(): Store
      reads this
    {
      Store(decisions, reviews, intents, prints, commands, orders, transitions, negatives, audit)
    }

    constructor ()
      ensures State() == NoRecords
    {
      decisions, reviews, intents, prints := map[], map[], map[], map[];
      commands, orders, transitions, negatives, audit := [], map[], [], {}, [];
    }

    method KeepDecision(id: Id, allowed: bool)
      modifies this
      ensures State() == SaveDecision(old(State()), id, allowed)
    {
      if id !in decisions { decisions := decisions[id := allowed]; }
      audit := audit + [DecisionMark(id)];
    }

    method KeepReview(review: Review)
      modifies this
      ensures State() == SaveReview(old(State()), review)
    {
      if review.id !in reviews { reviews := reviews[review.id := review]; }
      audit := audit + [ReviewMark(review.id)];
    }

    /** `refused` is the raised DuplicateOrderError. */
    method KeepIntent(intent: Intent) returns (refused: bool)
      requires Indexed(State())
      modifies this
      ensures refused <==> FindByPrint(old(State()), intent.id.fingerprint).Some?
      ensures State() == if refused then old(State()) else SaveIntent(Strict, old(State()), intent).value
      ensures Indexed(State())
    {
      OneIntentPerPrint(Strict, State(), intent);
      if FindByPrint(State(), intent.id.fingerprint).None? { NewIntent(Strict, State(), intent); }
      if intent.id in intents || intent.id.fingerprint in prints { return true; }
      intents := intents[intent.id := intent];
      prints := prints[intent.id.fingerprint := intent.id];
      audit := audit + [IntentMark(intent.id)];
      return false;
    }

    method KeepCommand(command: BrokerCommand) returns (refused: bool)
      modifies this
      ensures refused <==> SaveCommand(Strict, old(State()), command).None?
      ensures State() == if refused then old(State()) else SaveCommand(Strict, old(State()), command).value
    {
      if Has(commands, command.id) || command.id.intent !in intents { return true; }
      commands := Put(commands, command.id, command);
      audit := audit + [CommandMark(command.id)];
      return false;
    }

    method KeepOrder(order: Order) returns (refused: bool)
      modifies this
      ensures refused <==> SaveOrder(old(State()), order).None?
      ensures State() == if refused then old(State()) else SaveOrder(old(State()), order).value
    {
      if order.intent !in intents { return true; }
      orders := orders[order.intent := order];
      audit := audit + [OrderMark(order.orderId)];
      return false;
    }

    method KeepTransition(t: Transition)
      modifies this
      ensures State() == NoteTransition(old(State()), t)
    {
      transitions := transitions + [t];
      audit := audit + [TransitionMark(t.intent)];
    }

    method KeepNegative(i: IntentId)
      modifies this
      ensures State() == NoteNegative(old(State()), i)
    {
      negatives := negatives + {i};
      audit := audit + [NegativeMark(i)];
    }

    method FindCommand(i: IntentId) returns (found: Option<BrokerCommand>)
      ensures found == CommandIn(commands, i)
    {
      for k := 0 to |commands|
        invariant CommandIn(commands, i) == CommandIn(commands[k..], i)
      {
        assert commands[k..][1..] == commands[k + 1..];
        if commands[k].1.id.intent == i { return Some(commands[k].1); }
      }
      return None;
    }
  }
}
