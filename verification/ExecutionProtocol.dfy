/** Several service processes over one store, await by await. Each event completes, breaks or
    crashes at one await; whatever another process, the operator or the broker does may fall
    between any two of them. A durable write happens at the await that makes it, the code up to
    the next await runs with it. */
module ExecutionProtocol {
  import opened Dicts
  import opened Domain
  import opened OrderStates
  import opened RiskEngine
  import opened ExecutionStore
  import S = Safety

  datatype Mode = ResearchMode | ShadowMode | ApprovalMode | ExitAutoMode | AutoMode

  datatype Approval = Approval(
    id: Id, fingerprint: Fingerprint, maximumLimit: real, createdAt: int, expiresAt: int, rejected: bool)

  /** A request as it stands under the execution lock, with the mode read at its start. */
  datatype Ask = Ask(proposal: Proposal, approval: Option<Approval>, mode: Mode)

  /** `snapshotId` names the account snapshot judged: every reading of the account gets a fresh one. */
  datatype Judgement = Judgement(account: Account, quote: Quote, decisionId: Id, snapshotId: Id)

  datatype Job =
    | PlaceJob(ask: Ask, judged: Judgement, intent: Intent, schema: Id)
    | CancelJob(target: Order, first: BrokerCommand, intent: Intent, schema: Id, snapshotId: Id)

  datatype Stage =
    | Equipping | SavingIntent | SavingCommand | SavingPending | NotingPending
    | SavingRefusal | NotingRefusal
    | Calling
    | SavingResult(result: Order) | NotingResult(result: Order)
    | SavingUnknown(observed: Order, interrupted: bool) | NotingUnknown(interrupted: bool)

  /** The await at which the holder of a process's execution lock stands. */
  datatype Task =
    | Idle
    | Finding(ask: Ask) | Surveying(ask: Ask) | SavingSurvey(ask: Ask, reconciled: bool)
    | Judging(ask: Ask) | SavingDecision(ask: Ask, decisionId: Id, allowed: bool)
    | Reviewing(ask: Ask) | SavingAnswer(ask: Ask, review: Review)
    | Rejudging(ask: Ask, review: Review) | SavingRedecision(ask: Ask, review: Review, judged: Judgement, allowed: bool)
    | CancelStart(target: Order) | CancelSurvey(target: Order, origin: Intent, first: BrokerCommand)
    | CancelSavingSurvey(target: Order, origin: Intent, first: BrokerCommand, snapshotId: Id, reconciled: bool)
    | CancelFinding(target: Order, origin: Intent, first: BrokerCommand, snapshotId: Id)
    | Working(job: Job, stage: Stage)

  datatype Gates = Gates(mode: Mode, killed: bool, healthy: bool, safety: S.RuntimeState, now: int)

  datatype Process = Process(
    environment: Environment, namespace: string, risk: RiskConfig, gates: Gates, latch: set<IntentId>, task: Task)

  /** Reconciliations and broker updates take no lock. */
  datatype SideTask =
    | Done
    | ReadingUnknown(p: nat, intent: IntentId) | AskingBroker(p: nat, local: Order) | SavingFindings(p: nat, local: Order, usable: bool)
    | Fetching(p: nat, local: Order) | SavingNegative(p: nat, local: Order)
    | SavingMatch(p: nat, found: Order) | NotingMatch(p: nat, found: Order)
    | ReadingLocal(p: nat, update: Order, evidence: bool)
    | NotingUpdate(p: nat, update: Order, evidence: bool, previous: OrderState)
    | SavingUpdate(p: nat, update: Order, evidence: bool)

  datatype BrokerCall = BrokerCall(p: nat, command: BrokerCommand)

  datatype World = World(store: Store, procs: seq<Process>, sides: seq<SideTask>, calls: seq<BrokerCall>, nextId: Id)

  datatype Input =
    | Nothing
    | Survey(reconciled: bool)
    | Market(account: Account, quote: Quote)
    | Answer(accepted: bool, sideEffectFree: bool)
    | Capability(ready: bool, externalWrites: bool, schema: Id)
    | Response(order: Order)
    | Orders(found: Option<Order>, absenceProven: bool)

  datatype Event =
    | Turn(p: nat, gates: Gates)
    | Execute(p: nat, proposal: Proposal, approval: Option<Approval>)
    | CancelOrder(p: nat, target: Order)
    | Proceed(p: nat, input: Input)
    | Raise(p: nat, applied: bool, unresolved: bool)   // `unresolved`: timeout, lost connection or unknown submission
    | Interrupt(p: nat, applied: bool)                 // the task is cancelled at its await
    | Crash(p: nat)
    | Reconcile(p: nat, intent: IntentId)
    | Update(p: nat, order: Order, evidence: bool)
    | SideProceed(k: nat, input: Input)
    | SideStop(k: nat, applied: bool)

  // ---- what a request turns into ------------------------------------------------------------

  function PrintOf(p: Proposal): Fingerprint {
    OrderPrint(p.environment, p.namespace, p.contract.instrument, p.side, p.quantity, p.limit, p.proposalId)
  }

  function CancelPrintOf(proc: Process, target: Order): Fingerprint {
    CancelPrint(proc.namespace, target.orderId, target.intent)
  }

  function ApprovalId(a: Option<Approval>): Option<Id> {
    match a case None => None case Some(x) => Some(x.id)
  }

  function PlaceIntent(proc: Process, ask: Ask, review: Review, judged: Judgement): Intent {
    Intent(IntentId(proc.environment, proc.namespace, PlaceOptionOrder, PrintOf(ask.proposal)),
           ask.proposal.proposalId, judged.decisionId, review.id, ApprovalId(ask.approval), proc.gates.now)
  }

  function CancelIntent(proc: Process, target: Order, origin: Intent): Intent {
    Intent(IntentId(proc.environment, proc.namespace, CancelOptionOrder, CancelPrintOf(proc, target)),
           origin.proposalId, origin.decisionId, origin.reviewId, None, proc.gates.now)
  }

  function CommandOf(job: Job): BrokerCommand {
    match job
    case PlaceJob(ask, judged, intent, schema) =>
      var p := ask.proposal;
      BrokerCommand(CommandId(intent.id, schema), PlaceOptionOrder, p.contract.instrument, p.side, p.quantity, p.limit,
                    p.proposalId, judged.decisionId, ApprovalId(ask.approval), judged.snapshotId)
    case CancelJob(target, first, intent, schema, snapshotId) =>
      var left := target.quantity - target.filled;
      BrokerCommand(CommandId(intent.id, schema), CancelOptionOrder, target.contract.instrument, target.side,
                    if left < 1 then 1 else left, target.limit, first.proposalId, first.decisionId, None, snapshotId)
  }

  function PendingOf(job: Job): Order {
    match job
    case PlaceJob(ask, _, intent, _) =>
      var p := ask.proposal;
      Order(Pending(intent.id), intent.id, intent.id.environment, Submitting, p.contract, p.side, p.quantity, p.limit, 0)
    case CancelJob(target, _, intent, _, _) => target.(intent := intent.id, state := Submitting)
  }

  // ---- gates --------------------------------------------------------------------------------

  predicate Preflight(proc: Process, proposal: Proposal, mode: Mode) {
    && proc.latch == {}
    && !(proc.environment.Live? && mode.ShadowMode?) && !mode.ResearchMode?
    && !proc.gates.killed && proc.gates.healthy
    && (proposal.side.BuyToOpen? ==> S.PermitsEntry(proc.gates.safety))
    && (proposal.side.SellToClose? ==> S.PermitsExit(proc.gates.safety))
  }

  predicate ApprovalRequired(side: Side, mode: Mode) {
    mode.ApprovalMode? || (mode.ExitAutoMode? && side.BuyToOpen?)
  }

  /** An approval covers environment, namespace and proposal through the fingerprint. */
  predicate Covers(a: Approval, p: Proposal, now: int) {
    !a.rejected && a.fingerprint == PrintOf(p) && p.limit <= a.maximumLimit && a.createdAt <= now <= a.expiresAt
  }

  predicate ApprovalOk(proc: Process, ask: Ask) {
    ApprovalRequired(ask.proposal.side, ask.mode) ==> ask.approval.Some? && Covers(ask.approval.value, ask.proposal, proc.gates.now)
  }

  predicate RiskOk(proc: Process, ask: Ask, judged: Judgement) {
    EvaluateRisk(proc.risk, ask.proposal, judged.account, judged.quote, proc.gates.now).allowed
  }

  predicate CancelGate(proc: Process) {
    !proc.gates.killed && proc.gates.healthy && S.PermitsExit(proc.gates.safety)
  }

  predicate GateOpen(proc: Process, job: Job) {
    match job
    case PlaceJob(ask, judged, _, _) =>
      proc.gates.mode == ask.mode && Preflight(proc, ask.proposal, ask.mode) && ApprovalOk(proc, ask) && RiskOk(proc, ask, judged)
    case CancelJob(_, _, _, _, _) => CancelGate(proc)
  }

  function Halt(proc: Process): Process {
    proc.(gates := proc.gates.(safety := S.Halted))
  }

  /** A denied preflight; a set latch also stops the controller. */
  function Deny(proc: Process): Process {
    (if proc.latch != {} then Halt(proc) else proc).(task := Idle)
  }

  // ---- the locked task ----------------------------------------------------------------------

  function WriteOf(rule: Uniqueness, s: Store, job: Job, stage: Stage): Option<Store> {
    match stage
    case SavingIntent => SaveIntent(rule, s, job.intent)
    case SavingCommand => SaveCommand(rule, s, CommandOf(job))
    case SavingPending => SaveOrder(s, PendingOf(job))
    case NotingPending => Some(NoteTransition(s, Transition(job.intent.id, Move(IntentPersisted, Submitting, false))))
    case SavingRefusal => SaveOrder(s, PendingOf(job).(state := Rejected))
    case NotingRefusal => Some(NoteTransition(s, Transition(job.intent.id, Move(Submitting, Rejected, false))))
    case SavingResult(o) => SaveOrder(s, o)
    case NotingResult(o) =>
      if CanTransition(Submitting, o.state, false)
      then Some(NoteTransition(s, Transition(job.intent.id, Move(Submitting, o.state, false)))) else None
    case SavingUnknown(o, _) => SaveOrder(s, o.(state := SubmissionUnknown))
    case NotingUnknown(_) => Some(NoteTransition(s, Transition(job.intent.id, Move(Submitting, SubmissionUnknown, false))))
    case _ => Some(s)
  }

  /** The durable write of the await; `None` is the store's refusal. */
  function Written(rule: Uniqueness, s: Store, t: Task): Option<Store> {
    match t
    case SavingSurvey(_, _) => Some(SaveReport(s))
    case CancelSavingSurvey(_, _, _, _, _) => Some(SaveReport(s))
    case SavingDecision(_, id, allowed) => Some(SaveDecision(s, id, allowed))
    case SavingAnswer(_, review) => Some(SaveReview(s, review))
    case SavingRedecision(_, _, judged, allowed) => Some(SaveDecision(s, judged.decisionId, allowed))
    case Working(job, stage) => WriteOf(rule, s, job, stage)
    case _ => Some(s)
  }

  function With(w: World, p: nat, proc: Process): World
    requires p < |w.procs|
  {
    w.(procs := w.procs[p := proc])
  }

  function MoveTo(w: World, p: nat, task: Task): World
    requires p < |w.procs|
  {
    With(w, p, w.procs[p].(task := task))
  }

  /** From the completed await to the next one: requests up to the durable intent. */
  function ContinueAsk(w: World, p: nat, input: Input): World
    requires p < |w.procs|
  {
    var proc := w.procs[p];
    match proc.task
    case Finding(ask) =>
      if FindByPrint(w.store, PrintOf(ask.proposal)).Some? then MoveTo(w, p, Idle)
      else if !Preflight(proc, ask.proposal, ask.mode) then With(w, p, Deny(proc))
      else MoveTo(w, p, Surveying(ask))
    case Surveying(ask) => if input.Survey? then MoveTo(w, p, SavingSurvey(ask, input.reconciled)) else w
    case SavingSurvey(ask, reconciled) => MoveTo(w, p, if reconciled then Judging(ask) else Idle)
    case Judging(ask) =>
      if input.Market? then
        var allowed := EvaluateRisk(proc.risk, ask.proposal, input.account, input.quote, proc.gates.now).allowed;
        MoveTo(w, p, SavingDecision(ask, w.nextId, allowed)).(nextId := w.nextId + 1)
      else w
    case SavingDecision(ask, _, allowed) => MoveTo(w, p, if allowed then Reviewing(ask) else Idle)
    case Reviewing(ask) =>
      if input.Answer? then
        MoveTo(w, p, SavingAnswer(ask, Review(w.nextId, input.accepted, input.sideEffectFree))).(nextId := w.nextId + 1)
      else w
    case SavingAnswer(ask, review) =>
      MoveTo(w, p, if review.sideEffectFree && review.accepted && ApprovalOk(proc, ask) then Rejudging(ask, review) else Idle)
    case Rejudging(ask, review) =>
      if input.Market? then
        var judged := Judgement(input.account, input.quote, w.nextId, w.nextId + 1);
        MoveTo(w, p, SavingRedecision(ask, review, judged, RiskOk(proc, ask, judged))).(nextId := w.nextId + 2)
      else w
    case SavingRedecision(ask, review, judged, allowed) =>
      if !allowed || proc.gates.mode != ask.mode then MoveTo(w, p, Idle)
      else if !Preflight(proc, ask.proposal, ask.mode) then With(w, p, Deny(proc))
      else if !ApprovalOk(proc, ask) then MoveTo(w, p, Idle)
      else MoveTo(w, p, Working(PlaceJob(ask, judged, PlaceIntent(proc, ask, review, judged), 0), Equipping))
    case CancelStart(target) =>
      var command := CommandIn(w.store.commands, target.intent);
      if target.intent in w.store.intents && command.Some?
      then MoveTo(w, p, CancelSurvey(target, w.store.intents[target.intent], command.value)) else MoveTo(w, p, Idle)
    case CancelSurvey(target, origin, first) =>
      if input.Survey? then
        MoveTo(w, p, CancelSavingSurvey(target, origin, first, w.nextId, input.reconciled)).(nextId := w.nextId + 1)
      else w
    case CancelSavingSurvey(target, origin, first, snapshotId, reconciled) =>
      MoveTo(w, p, if reconciled then CancelFinding(target, origin, first, snapshotId) else Idle)
    case CancelFinding(target, origin, first, snapshotId) =>
      if FindByPrint(w.store, CancelPrintOf(proc, target)).Some? then MoveTo(w, p, Idle)
      else MoveTo(w, p, Working(CancelJob(target, first, CancelIntent(proc, target, origin), 0, snapshotId), SavingIntent))
    case _ => w
  }

  function Received(proc: Process, job: Job, o: Order): Process {
    if job.CancelJob? then proc.(task := Working(job, SavingResult(o.(intent := job.intent.id))))
    else if o.intent == job.intent.id && o.environment == proc.environment then proc.(task := Working(job, SavingResult(o)))
    else (if proc.environment.Live? then Halt(proc) else proc).(task := Idle)
  }

  /** From the completed await to the next one: the durable intent, the command, the call. */
  function ContinueJob(w: World, p: nat, job: Job, stage: Stage, input: Input): World
    requires p < |w.procs|
  {
    var proc := w.procs[p];
    match stage
    case Equipping =>
      if !input.Capability? then w
      else if !input.ready then MoveTo(w, p, Idle)
      else if proc.environment.Demo? && input.externalWrites then With(w, p, Halt(proc).(task := Idle))
      else MoveTo(w, p, Working(job.(schema := input.schema), if job.PlaceJob? then SavingIntent else SavingCommand))
    case SavingIntent => MoveTo(w, p, Working(job, if job.PlaceJob? then SavingCommand else Equipping))
    case SavingCommand => MoveTo(w, p, Working(job, SavingPending))
    case SavingPending => MoveTo(w, p, Working(job, NotingPending))
    case NotingPending =>
      if GateOpen(proc, job) then MoveTo(w, p, Working(job, Calling)).(calls := w.calls + [BrokerCall(p, CommandOf(job))])
      else With(w, p, (if job.PlaceJob? && proc.gates.mode == job.ask.mode && proc.latch != {} then Halt(proc) else proc)
                        .(task := Working(job, SavingRefusal)))
    case SavingRefusal => MoveTo(w, p, Working(job, NotingRefusal))
    case Calling => if input.Response? then With(w, p, Received(proc, job, input.order)) else w
    case SavingResult(o) => MoveTo(w, p, Working(job, NotingResult(o)))
    case SavingUnknown(_, interrupted) => MoveTo(w, p, Working(job, NotingUnknown(interrupted)))
    case NotingRefusal => MoveTo(w, p, Idle)
    case NotingResult(_) => MoveTo(w, p, Idle)
    case NotingUnknown(_) => MoveTo(w, p, Idle)
  }

  /** An exception at the await. */
  function Raised(proc: Process, unresolved: bool): Process {
    match proc.task
    case Working(job, Calling) =>
      if unresolved && proc.environment.Live? then Halt(proc).(task := Working(job, SavingUnknown(PendingOf(job), false)))
      else proc.(task := Idle)
    case Working(job, SavingUnknown(_, true)) => Halt(proc).(task := Idle)
    case Working(job, NotingUnknown(true)) => Halt(proc).(task := Idle)
    case _ => proc.(task := Idle)
  }

  function Latched(proc: Process, job: Job, observed: Order): Process {
    Halt(proc).(latch := proc.latch + {job.intent.id}, task := Working(job, SavingUnknown(observed, true)))
  }

  /** A cancellation at the await: a write that may have reached the broker is latched. */
  function Interrupted(proc: Process): Process {
    match proc.task
    case Working(job, Calling) => Latched(proc, job, PendingOf(job))
    case Working(job, SavingResult(o)) => Latched(proc, job, o)
    case Working(job, NotingResult(o)) => Latched(proc, job, o)
    case Working(job, SavingUnknown(_, true)) => Halt(proc).(task := Idle)
    case Working(job, NotingUnknown(true)) => Halt(proc).(task := Idle)
    case _ => proc.(task := Idle)
  }

  function Partly(rule: Uniqueness, w: World, p: nat, applied: bool): World
    requires p < |w.procs|
  {
    if applied && Written(rule, w.store, w.procs[p].task).Some?
    then w.(store := Written(rule, w.store, w.procs[p].task).value) else w
  }

  function Advance(rule: Uniqueness, w: World, p: nat, input: Input): World
    requires p < |w.procs|
  {
    match Written(rule, w.store, w.procs[p].task)
    case None => With(w, p, Raised(w.procs[p], false))
    case Some(s) =>
      var t := w.(store := s);
      if w.procs[p].task.Working? then ContinueJob(t, p, w.procs[p].task.job, w.procs[p].task.stage, input)
      else ContinueAsk(t, p, input)
  }

  function StartCancel(proc: Process, target: Order): Process {
    if proc.latch != {} then Deny(proc)
    else if target.environment != proc.environment || !IsOpen(target.state) || !CancelGate(proc) then proc
    else proc.(task := CancelStart(target))
  }

  // ---- reconciliations and updates ----------------------------------------------------------


  predicate Conclusive(proc: Process, local: Order, found: Order) {
    && found.intent == local.intent && found.environment == proc.environment
    && found.contract == local.contract && found.side == local.side && found.quantity == local.quantity && found.limit == local.limit
    && !found.state.Submitting? && !found.state.SubmissionUnknown?
  }

  predicate Acceptable(proc: Process, local: Order, o: Order) {
    && o.environment == proc.environment && o.orderId == local.orderId && o.contract == local.contract
    && o.side == local.side && o.quantity == local.quantity && o.filled >= local.filled
  }

  function SideWrite(s: Store, t: SideTask): Option<Store> {
    match t
    case SavingFindings(_, _, _) => Some(SaveReport(s))
    case SavingNegative(_, local) => Some(NoteNegative(s, local.intent))
    case SavingMatch(_, found) => SaveOrder(s, found)
    case NotingMatch(_, found) =>
      if CanTransition(SubmissionUnknown, found.state, true)
      then Some(NoteTransition(s, Transition(found.intent, Move(SubmissionUnknown, found.state, true)))) else None
    case NotingUpdate(_, o, evidence, previous) =>
      if CanTransition(previous, o.state, evidence)
      then Some(NoteTransition(s, Transition(o.intent, Move(previous, o.state, evidence)))) else None
    case SavingUpdate(_, o, _) => SaveOrder(s, o)
    case _ => Some(s)
  }

  function SideNext(s: Store, proc: Process, t: SideTask, input: Input): SideTask {
    match t
    case ReadingUnknown(p, i) =>
      if i in s.orders && s.orders[i].state.SubmissionUnknown? then AskingBroker(p, s.orders[i]) else Done
    case AskingBroker(p, local) => if input.Survey? then SavingFindings(p, local, input.reconciled) else t
    case SavingFindings(p, local, usable) => if usable then Fetching(p, local) else Done
    case Fetching(p, local) =>
      if !input.Orders? then t
      else if input.found.None? then
        if local.intent in s.intents && input.absenceProven then SavingNegative(p, local) else Done
      else if Conclusive(proc, local, input.found.value) then SavingMatch(p, input.found.value) else Done
    case SavingMatch(p, found) => NotingMatch(p, found)
    case ReadingLocal(p, o, evidence) =>
      if o.intent !in s.orders || !Acceptable(proc, s.orders[o.intent], o) then Done
      else
        var local := s.orders[o.intent];
        if o.state != local.state || o.filled != local.filled then NotingUpdate(p, o, evidence, local.state)
        else SavingUpdate(p, o, evidence)
    case NotingUpdate(p, o, evidence, _) => SavingUpdate(p, o, evidence)
    case _ => Done
  }

  function AdvanceSide(w: World, k: nat, input: Input): World
    requires k < |w.sides|
  {
    if w.sides[k].Done? || w.sides[k].p >= |w.procs| then w
    else match SideWrite(w.store, w.sides[k])
      case None => w.(sides := w.sides[k := Done])
      case Some(s) => w.(store := s, sides := w.sides[k := SideNext(s, w.procs[w.sides[k].p], w.sides[k], input)])
  }

  function StopSides(sides: seq<SideTask>, p: nat): seq<SideTask> {
    seq(|sides|, k requires 0 <= k < |sides| => if !sides[k].Done? && sides[k].p == p then Done else sides[k])
  }

  ghost predicate Sent(calls: seq<BrokerCall>, i: IntentId) {
    exists k :: 0 <= k < |calls| && calls[k].command.id.intent == i
  }

  // ---- the world ----------------------------------------------------------------------------

  /** One event. The broker reports only on orders it has been asked for, so that an update for an
      intent never sent does not occur. */
  ghost function Step(rule: Uniqueness, w: World, e: Event): World {
    match e
    case Turn(p, gates) => if p < |w.procs| then With(w, p, w.procs[p].(gates := gates)) else w
    case Execute(p, proposal, approval) =>
      if p < |w.procs| && w.procs[p].task.Idle?
         && proposal.environment == w.procs[p].environment && proposal.namespace == w.procs[p].namespace
      then MoveTo(w, p, Finding(Ask(proposal, approval, w.procs[p].gates.mode))) else w
    case CancelOrder(p, target) =>
      if p < |w.procs| && w.procs[p].task.Idle? then With(w, p, StartCancel(w.procs[p], target)) else w
    case Proceed(p, input) => if p < |w.procs| then Advance(rule, w, p, input) else w
    case Raise(p, applied, unresolved) =>
      if p < |w.procs| then With(Partly(rule, w, p, applied), p, Raised(w.procs[p], unresolved)) else w
    case Interrupt(p, applied) =>
      if p < |w.procs| then With(Partly(rule, w, p, applied), p, Interrupted(w.procs[p])) else w
    case Crash(p) =>
      if p < |w.procs| then With(w, p, w.procs[p].(task := Idle, latch := {})).(sides := StopSides(w.sides, p)) else w
    case Reconcile(p, intent) => if p < |w.procs| then w.(sides := w.sides + [ReadingUnknown(p, intent)]) else w
    case Update(p, o, evidence) =>
      if p < |w.procs| && Sent(w.calls, o.intent) then w.(sides := w.sides + [ReadingLocal(p, o, evidence)]) else w
    case SideProceed(k, input) => if k < |w.sides| then AdvanceSide(w, k, input) else w
    case SideStop(k, applied) =>
      if k < |w.sides| then
        var s := SideWrite(w.store, w.sides[k]);
        w.(store := if applied && s.Some? then s.value else w.store, sides := w.sides[k := Done])
      else w
  }

  ghost function RunOf(rule: Uniqueness, w: World, events: seq<Event>): World {
    if events == [] then w else Step(rule, RunOf(rule, w, events[..|events| - 1]), events[|events| - 1])
  }

  /** An empty store, services at rest. */
  ghost predicate Initial(w: World) {
    && w.store == NoRecords && w.sides == [] && w.calls == []
    && forall p :: 0 <= p < |w.procs| ==> w.procs[p].task.Idle? && w.procs[p].latch == {}
  }
}
