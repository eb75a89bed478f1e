/** What every interleaving of the services keeps: one broker write per fingerprint, and complete
    durable evidence behind every placement. */
module ExecutionSafety {
  import opened Dicts
  import opened Domain
  import opened OrderStates
  import opened RiskEngine
  import opened ExecutionStore
  import opened ExecutionProtocol

  // ---- records in order ---------------------------------------------------------------------

  /** `marks` occur in `audit` in this order. */
  ghost predicate InOrder(marks: seq<Mark>, audit: seq<Mark>)
    decreases |audit|
  {
    marks == [] ||
    (audit != [] &&
     var before, last := audit[..|audit| - 1], audit[|audit| - 1];
     InOrder(marks, before) || (marks[|marks| - 1] == last && InOrder(marks[..|marks| - 1], before)))
  }

  lemma {:induction false} InOrderGrows(marks: seq<Mark>, a: seq<Mark>, b: seq<Mark>)
    requires InOrder(marks, a) && a <= b
    ensures InOrder(marks, b)
    decreases |b|
  {
    if |a| < |b| {
      InOrderGrows(marks, a, b[..|b| - 1]);
    } else {
      assert a == b;
    }
  }

  lemma {:induction false} InOrderAdds(marks: seq<Mark>, a: seq<Mark>, m: Mark)
    requires InOrder(marks, a)
    ensures InOrder(marks + [m], a + [m])
  {
    assert (a + [m])[..|a|] == a && (marks + [m])[..|marks|] == marks;
  }

  // ---- what a task knows --------------------------------------------------------------------

  /** Under the strict rule every intent, under the retrying rule every placement intent, has a
      single owner. A cancellation's intent may be shared under the retrying rule, its command may
      not. */
  predicate Exclusive(rule: Uniqueness, i: IntentId) {
    rule.Strict? || i.action.PlaceOptionOrder?
  }

  /** The task has made its intent durable and has not called the broker. */
  predicate Owning(t: Task) {
    t.Working? &&
    match t.stage
    case Equipping => t.job.CancelJob?
    case SavingCommand => true
    case SavingPending => true
    case NotingPending => true
    case SavingRefusal => true
    case NotingRefusal => true
    case _ => false
  }

  predicate Commanded(t: Task) {
    t.Working? && (t.stage.SavingPending? || t.stage.NotingPending? || t.stage.SavingRefusal? || t.stage.NotingRefusal?)
  }

  /** Nobody else is on the way to the broker with this intent. */
  predicate Sole(rule: Uniqueness, t: Task) {
    Owning(t) && (Exclusive(rule, t.job.intent.id) || Commanded(t))
  }

  predicate Unsaved(t: Task) {
    t.SavingRedecision? || (t.Working? && t.job.PlaceJob? && (t.stage.Equipping? || t.stage.SavingIntent?))
  }

  /** The fresh identity the task carries. */
  function IdOf(t: Task): Option<Id> {
    match t
    case SavingDecision(_, id, _) => Some(id)
    case SavingAnswer(_, review) => Some(review.id)
    case SavingRedecision(_, _, judged, _) => Some(judged.decisionId)
    case Working(job, _) => if job.PlaceJob? then Some(job.intent.decisionId) else None
    case _ => None
  }

  /** The account snapshot the task's command names. */
  function SnapshotOf(t: Task): Option<Id> {
    match t
    case SavingRedecision(_, _, judged, _) => Some(judged.snapshotId)
    case CancelSavingSurvey(_, _, _, id, _) => Some(id)
    case CancelFinding(_, _, _, id) => Some(id)
    case Working(job, _) => Some(CommandOf(job).snapshotId)
    case _ => None
  }

  predicate Uncommanded(t: Task) {
    SnapshotOf(t).Some? && (t.Working? ==> t.stage.Equipping? || t.stage.SavingIntent? || t.stage.SavingCommand?)
  }

  /** No stored command names the snapshot. */
  ghost predicate Unnamed(commands: Dict<CommandId, BrokerCommand>, id: Id) {
    forall j :: 0 <= j < |commands| ==> commands[j].1.snapshotId != id
  }

  /** The records that must precede the await at which a placement stands. */
  function TrailOf(t: Task): seq<Mark> {
    match t
    case Rejudging(_, r) => [ReviewMark(r.id)]
    case SavingRedecision(_, r, _, _) => [ReviewMark(r.id)]
    case Working(job, stage) => if job.PlaceJob? then StageTrail(job, stage) else []
    case _ => []
  }

  function StageTrail(job: Job, stage: Stage): seq<Mark> {
    var judged := [ReviewMark(job.intent.reviewId), DecisionMark(job.intent.decisionId)];
    match stage
    case Equipping => judged
    case SavingIntent => judged
    case SavingCommand => judged + [IntentMark(job.intent.id)]
    case SavingPending => judged + [IntentMark(job.intent.id)] + [CommandMark(CommandOf(job).id)]
    case NotingPending => FullTrail(job)
    case _ => []
  }

  function FullTrail(job: Job): seq<Mark> {
    [ReviewMark(job.intent.reviewId), DecisionMark(job.intent.decisionId)] + [IntentMark(job.intent.id)]
    + [CommandMark(CommandOf(job).id)] + [OrderMark(Pending(job.intent.id))]
  }

  predicate JobOk(proc: Process, job: Job) {
    match job
    case PlaceJob(ask, judged, intent, _) =>
      intent.id == IntentId(proc.environment, proc.namespace, PlaceOptionOrder, PrintOf(ask.proposal))
      && intent.decisionId == judged.decisionId
    case CancelJob(_, _, intent, _, _) => intent.id.action.CancelOptionOrder? && intent.id.fingerprint.CancelPrint?
  }

  predicate AcceptedReview(s: Store, id: Id) {
    id in s.reviews && s.reviews[id].accepted && s.reviews[id].sideEffectFree
  }

  predicate ReviewNeeded(t: Task) {
    t.Rejudging? || t.SavingRedecision? || (t.Working? && t.job.PlaceJob? && (t.stage.Equipping? || t.stage.SavingIntent? || Owning(t)))
  }

  function ReviewOf(t: Task): Id
    requires ReviewNeeded(t)
  {
    match t case Rejudging(_, r) => r.id case SavingRedecision(_, r, _, _) => r.id case Working(job, _) => job.intent.reviewId
  }

  ghost predicate SentPrint(calls: seq<BrokerCall>, f: Fingerprint) {
    exists k :: 0 <= k < |calls| && calls[k].command.id.intent.fingerprint == f
  }

  predicate Cancelling(t: Task) {
    t.CancelStart? || t.CancelSurvey? || t.CancelSavingSurvey? || t.CancelFinding?
    || (t.Working? && t.job.CancelJob? && (Owning(t) || t.stage.SavingIntent?))
  }

  ghost predicate OwningOk(rule: Uniqueness, s: Store, calls: seq<BrokerCall>, job: Job, stage: Stage) {
    && job.intent.id in s.intents && s.intents[job.intent.id] == job.intent
    && (Sole(rule, Working(job, stage)) ==> !SentPrint(calls, job.intent.id.fingerprint))
    && (Commanded(Working(job, stage)) ==> CommandIn(s.commands, job.intent.id).Some?)
    && (Commanded(Working(job, stage)) && rule.RetryIdempotent? ==> CommandIn(s.commands, job.intent.id) == Some(CommandOf(job)))
    && (job.PlaceJob? && (stage.SavingPending? || stage.NotingPending?) ==> Get(s.commands, CommandOf(job).id) == Some(CommandOf(job)))
    && (stage.NotingPending? ==> job.intent.id in s.orders)
    && (job.PlaceJob? && stage.NotingPending? ==> s.orders[job.intent.id] == PendingOf(job))
  }

  /** A result is filed under the intent that was sent. */
  ghost predicate AnswerOk(calls: seq<BrokerCall>, job: Job, stage: Stage) {
    match stage
    case Calling => Sent(calls, job.intent.id)
    case SavingResult(o) => Sent(calls, job.intent.id) && o.intent == job.intent.id
    case NotingResult(o) => Sent(calls, job.intent.id) && o.intent == job.intent.id
    case SavingUnknown(o, _) => Sent(calls, job.intent.id) && o.intent == job.intent.id
    case _ => true
  }

  /** The identities a task carries are old, and its own until it records them. */
  ghost predicate NamesOk(s: Store, nextId: Id, t: Task) {
    && (IdOf(t).Some? ==> IdOf(t).value < nextId)
    && (SnapshotOf(t).Some? ==> SnapshotOf(t).value < nextId)
    && (Uncommanded(t) ==> Unnamed(s.commands, SnapshotOf(t).value))
    && (t.SavingAnswer? ==> t.review.id !in s.reviews)
    && (Unsaved(t) ==> forall i :: i in s.intents && i.action.PlaceOptionOrder? ==> s.intents[i].decisionId != IdOf(t).value)
  }

  ghost predicate TaskOk(rule: Uniqueness, s: Store, calls: seq<BrokerCall>, nextId: Id, proc: Process) {
    var t := proc.task;
    && NamesOk(s, nextId, t)
    && (ReviewNeeded(t) ==> AcceptedReview(s, ReviewOf(t)))
    && InOrder(TrailOf(t), s.audit)
    && (t.Working? ==> JobOk(proc, t.job) && AnswerOk(calls, t.job, t.stage))
    && (Owning(t) ==> OwningOk(rule, s, calls, t.job, t.stage))
    && (Cancelling(t) ==> proc.latch == {})
  }

  ghost predicate Apart(rule: Uniqueness, t: Task, u: Task) {
    && (IdOf(t).Some? && IdOf(u).Some? ==> IdOf(t) != IdOf(u))
    && (SnapshotOf(t).Some? && SnapshotOf(u).Some? ==> SnapshotOf(t) != SnapshotOf(u))
    && (Sole(rule, t) && Sole(rule, u) ==> t.job.intent.id.fingerprint != u.job.intent.id.fingerprint)
  }

  ghost predicate SideOk(calls: seq<BrokerCall>, t: SideTask) {
    match t
    case AskingBroker(_, local) => Sent(calls, local.intent)
    case SavingFindings(_, local, _) => Sent(calls, local.intent)
    case Fetching(_, local) => Sent(calls, local.intent)
    case SavingMatch(_, found) => Sent(calls, found.intent)
    case ReadingLocal(_, o, _) => Sent(calls, o.intent)
    case NotingUpdate(_, o, _, _) => Sent(calls, o.intent)
    case SavingUpdate(_, o, _) => Sent(calls, o.intent)
    case _ => true
  }

  ghost predicate ReviewsOk(reviews: map<Id, Review>, nextId: Id) {
    forall r :: r in reviews ==> r < nextId && reviews[r].id == r
  }

  ghost predicate IntentsOk(intents: map<IntentId, Intent>, nextId: Id) {
    forall i :: i in intents ==>
      (i.action.PlaceOptionOrder? <==> i.fingerprint.OrderPrint?) && (i.action.PlaceOptionOrder? ==> intents[i].decisionId < nextId)
  }

  ghost predicate OrdersOk(orders: map<IntentId, Order>, calls: seq<BrokerCall>) {
    forall i :: i in orders ==> orders[i].intent == i && (orders[i].state.SubmissionUnknown? ==> Sent(calls, i))
  }

  ghost predicate CommandsOk(commands: Dict<CommandId, BrokerCommand>, nextId: Id) {
    forall j :: 0 <= j < |commands| ==> commands[j].1.snapshotId < nextId
  }

  ghost predicate CallsDurable(s: Store, calls: seq<BrokerCall>) {
    forall k :: 0 <= k < |calls| ==>
      var i := calls[k].command.id.intent; i in s.intents && i in s.orders && CommandIn(s.commands, i).Some?
  }

  ghost predicate RecordsOk(s: Store, calls: seq<BrokerCall>, nextId: Id) {
    && Indexed(s) && ReviewsOk(s.reviews, nextId) && IntentsOk(s.intents, nextId) && OrdersOk(s.orders, calls)
    && CommandsOk(s.commands, nextId) && CallsDurable(s, calls)
  }

  ghost predicate CallsOnce(calls: seq<BrokerCall>) {
    forall j, k :: 0 <= j < k < |calls| ==>
      calls[j].command.id.intent.fingerprint != calls[k].command.id.intent.fingerprint
  }

  ghost predicate WorldInv(rule: Uniqueness, w: World) {
    && RecordsOk(w.store, w.calls, w.nextId) && CallsOnce(w.calls)
    && (forall p :: 0 <= p < |w.procs| ==> TaskOk(rule, w.store, w.calls, w.nextId, w.procs[p]))
    && (forall p, q :: 0 <= p < |w.procs| && 0 <= q < |w.procs| && p != q ==> Apart(rule, w.procs[p].task, w.procs[q].task))
    && (forall k :: 0 <= k < |w.sides| ==> SideOk(w.calls, w.sides[k]))
  }

  // ---- what the others see of one step ------------------------------------------------------

  /** The changes one step of a task `t` may make to the records. */
  ghost predicate Within(s: Store, calls: seq<BrokerCall>, s2: Store, calls2: seq<BrokerCall>, t: Task) {
    && (forall r :: r in s.reviews ==> r in s2.reviews && s2.reviews[r] == s.reviews[r])
    && (forall r :: r in s2.reviews ==> r in s.reviews || IdOf(t) == Some(r))
    && (forall i :: i in s.intents ==> i in s2.intents && s2.intents[i] == s.intents[i])
    && (forall i :: i in s2.intents && i !in s.intents && i.action.PlaceOptionOrder? ==> IdOf(t) == Some(s2.intents[i].decisionId))
    && s.commands <= s2.commands
    && (forall j :: |s.commands| <= j < |s2.commands| ==> SnapshotOf(t) == Some(s2.commands[j].1.snapshotId))
    && s.audit <= s2.audit
    && (forall i :: i in s.orders ==> i in s2.orders)
    && (forall i :: i in s2.orders && (i !in s.orders || s2.orders[i] != s.orders[i]) ==>
          Sent(calls, i) || (Commanded(t) && i == t.job.intent.id))
    && (calls2 == calls ||
        (Commanded(t) && |calls2| == |calls| + 1 && calls2[..|calls|] == calls && calls2[|calls|].command.id.intent == t.job.intent.id))
  }

  lemma SentGrows(calls: seq<BrokerCall>, more: seq<BrokerCall>, i: IntentId)
    requires calls <= more && Sent(calls, i)
    ensures Sent(more, i)
  {
    var k :| 0 <= k < |calls| && calls[k].command.id.intent == i;
    assert more[k].command.id.intent == i;
  }

  lemma PrintsGrow(calls: seq<BrokerCall>, c: BrokerCall, f: Fingerprint)
    ensures SentPrint(calls + [c], f) <==> SentPrint(calls, f) || c.command.id.intent.fingerprint == f
    ensures forall i :: Sent(calls + [c], i) <==> Sent(calls, i) || c.command.id.intent == i
  {
    var more := calls + [c];
    assert more[|calls|] == c;
    assert forall k :: 0 <= k < |calls| ==> more[k] == calls[k];
  }

  lemma SentIsPrinted(calls: seq<BrokerCall>, i: IntentId)
    requires Sent(calls, i)
    ensures SentPrint(calls, i.fingerprint)
  {
    var k :| 0 <= k < |calls| && calls[k].command.id.intent == i;
    assert calls[k].command.id.intent.fingerprint == i.fingerprint;
  }

  lemma AnswerKept(calls: seq<BrokerCall>, more: seq<BrokerCall>, job: Job, stage: Stage)
    requires calls <= more && AnswerOk(calls, job, stage)
    ensures AnswerOk(more, job, stage)
  {
    if Sent(calls, job.intent.id) { SentGrows(calls, more, job.intent.id); }
  }

  lemma OwningKept(rule: Uniqueness, s: Store, calls: seq<BrokerCall>, s2: Store, calls2: seq<BrokerCall>, t: Task, u: Task)
    requires Within(s, calls, s2, calls2, t) && Apart(rule, u, t) && Owning(u)
    requires OwningOk(rule, s, calls, u.job, u.stage) && (u.job.PlaceJob? ==> u.job.intent.id.action.PlaceOptionOrder?)
    ensures OwningOk(rule, s2, calls2, u.job, u.stage)
  {
    var i := u.job.intent.id;
    var c := CommandOf(u.job).id;
    if Has(s.commands, c) { GetPrefix(s.commands, s2.commands, c); }
    if CommandIn(s.commands, i).Some? { CommandInPrefix(s.commands, s2.commands, i); }
    if Sole(rule, Working(u.job, u.stage)) {
      if calls2 != calls {
        assert calls2 == calls + [calls2[|calls|]];
        PrintsGrow(calls, calls2[|calls|], i.fingerprint);
      }
      if Sent(calls, i) { SentIsPrinted(calls, i); }
    }
  }

  lemma NamesKept(rule: Uniqueness, s: Store, calls: seq<BrokerCall>, n: Id, s2: Store, calls2: seq<BrokerCall>, m: Id, t: Task, u: Task)
    requires NamesOk(s, n, u) && Apart(rule, u, t) && Within(s, calls, s2, calls2, t) && n <= m
    ensures NamesOk(s2, m, u)
  {
  }

  lemma TaskKept(rule: Uniqueness, s: Store, calls: seq<BrokerCall>, n: Id, s2: Store, calls2: seq<BrokerCall>, m: Id, t: Task, proc: Process)
    requires TaskOk(rule, s, calls, n, proc) && Apart(rule, proc.task, t) && Within(s, calls, s2, calls2, t) && n <= m
    ensures TaskOk(rule, s2, calls2, m, proc)
  {
    var u := proc.task;
    NamesKept(rule, s, calls, n, s2, calls2, m, t, u);
    InOrderGrows(TrailOf(u), s.audit, s2.audit);
    if u.Working? { AnswerKept(calls, calls2, u.job, u.stage); }
    if Owning(u) { OwningKept(rule, s, calls, s2, calls2, t, u); }
  }

  // ---- the durable write of one await -------------------------------------------------------

  /** A placement's intent is never mistaken for a repetition: its risk decision is its own. */
  lemma PlacementIsNew(rule: Uniqueness, s: Store, calls: seq<BrokerCall>, n: Id, proc: Process)
    requires RecordsOk(s, calls, n) && TaskOk(rule, s, calls, n, proc)
    requires proc.task.Working? && proc.task.stage.SavingIntent? && SaveIntent(rule, s, proc.task.job.intent).Some?
    requires Exclusive(rule, proc.task.job.intent.id)
    ensures FindByPrint(s, proc.task.job.intent.id.fingerprint).None? && !InUse(s, proc.task.job.intent)
    ensures !SentPrint(calls, proc.task.job.intent.id.fingerprint)
  {
    var i := proc.task.job.intent;
    OneIntentPerPrint(rule, s, i);
    assert i.id.fingerprint !in s.prints;
    forall k | 0 <= k < |calls| ensures calls[k].command.id.intent.fingerprint != i.id.fingerprint {
      assert calls[k].command.id.intent in s.intents;
    }
  }

  lemma NewIntentRecords(rule: Uniqueness, s: Store, calls: seq<BrokerCall>, n: Id, i: Intent)
    requires RecordsOk(s, calls, n) && FindByPrint(s, i.id.fingerprint).None?
    requires i.id.action.PlaceOptionOrder? <==> i.id.fingerprint.OrderPrint?
    requires i.id.action.PlaceOptionOrder? ==> i.decisionId < n
    ensures SaveIntent(rule, s, i).Some? && RecordsOk(SaveIntent(rule, s, i).value, calls, n)
  {
    NewIntent(rule, s, i);
    assert IntentsOk(SaveIntent(rule, s, i).value.intents, n);
  }

  lemma NewIntentWrite(rule: Uniqueness, s: Store, calls: seq<BrokerCall>, i: Intent, t: Task)
    requires Indexed(s) && FindByPrint(s, i.id.fingerprint).None?
    requires i.id.action.PlaceOptionOrder? ==> IdOf(t) == Some(i.decisionId)
    ensures SaveIntent(rule, s, i).Some?
    ensures var s2 := SaveIntent(rule, s, i).value;
      Within(s, calls, s2, calls, t) && i.id in s2.intents && s2.intents[i.id] == i
  {
    NewIntent(rule, s, i);
  }

  lemma OldIntentWrite(rule: Uniqueness, s: Store, i: Intent)
    requires Indexed(s) && FindByPrint(s, i.id.fingerprint).Some? && SaveIntent(rule, s, i).Some?
    ensures SaveIntent(rule, s, i).value == s && i.id in s.intents && s.intents[i.id] == i
  {
    OneIntentPerPrint(rule, s, i);
  }

  lemma IntentWrite(rule: Uniqueness, s: Store, calls: seq<BrokerCall>, n: Id, proc: Process)
    requires RecordsOk(s, calls, n) && TaskOk(rule, s, calls, n, proc)
    requires proc.task.Working? && proc.task.stage.SavingIntent? && SaveIntent(rule, s, proc.task.job.intent).Some?
    ensures var s2 := SaveIntent(rule, s, proc.task.job.intent).value;
      && Within(s, calls, s2, calls, proc.task) && RecordsOk(s2, calls, n)
      && proc.task.job.intent.id in s2.intents && s2.intents[proc.task.job.intent.id] == proc.task.job.intent
  {
    var i := proc.task.job.intent;
    if FindByPrint(s, i.id.fingerprint).None? {
      NewIntentRecords(rule, s, calls, n, i);
      NewIntentWrite(rule, s, calls, i, proc.task);
    } else {
      OldIntentWrite(rule, s, i);
      StandStill(s, calls, proc.task);
    }
  }

  lemma OrderWrite(s: Store, calls: seq<BrokerCall>, n: Id, o: Order, t: Task)
    requires RecordsOk(s, calls, n) && SaveOrder(s, o).Some?
    requires Sent(calls, o.intent) || (Commanded(t) && o.intent == t.job.intent.id && !o.state.SubmissionUnknown?)
    ensures Within(s, calls, SaveOrder(s, o).value, calls, t) && RecordsOk(SaveOrder(s, o).value, calls, n)
  {
    assert OrdersOk(SaveOrder(s, o).value.orders, calls);
    assert Indexed(SaveOrder(s, o).value);
  }

  lemma {:induction false} GetPrefix(d: Dict<CommandId, BrokerCommand>, e: Dict<CommandId, BrokerCommand>, c: CommandId)
    requires d <= e && Has(d, c)
    ensures Get(e, c) == Get(d, c)
  {
    if d[0].0 != c { GetPrefix(d[1..], e[1..], c); }
  }

  lemma {:induction false} CommandInPrefix(d: Dict<CommandId, BrokerCommand>, e: Dict<CommandId, BrokerCommand>, i: IntentId)
    requires d <= e && CommandIn(d, i).Some?
    ensures CommandIn(e, i) == CommandIn(d, i)
  {
    if d[0].1.id.intent != i { CommandInPrefix(d[1..], e[1..], i); }
  }

  lemma {:induction false} CommandInAdds(d: Dict<CommandId, BrokerCommand>, c: BrokerCommand)
    requires CommandIn(d, c.id.intent).None?
    ensures CommandIn(d + [(c.id, c)], c.id.intent) == Some(c)
  {
    if d != [] {
      assert (d + [(c.id, c)])[1..] == d[1..] + [(c.id, c)];
      CommandInAdds(d[1..], c);
    }
  }

  lemma {:induction false} CommandInNamed(d: Dict<CommandId, BrokerCommand>, i: IntentId, id: Id)
    requires Unnamed(d, id) && CommandIn(d, i).Some?
    ensures CommandIn(d, i).value.snapshotId != id
  {
    if d[0].1.id.intent != i { CommandInNamed(d[1..], i, id); }
  }

  /** A command that names a fresh snapshot repeats nothing: saving it appends it, and under the
      retrying rule it is the first of its intent. */
  lemma CommandIsNew(rule: Uniqueness, s: Store, c: BrokerCommand)
    requires Unnamed(s.commands, c.snapshotId) && SaveCommand(rule, s, c).Some?
    ensures c.id.intent in s.intents && (rule.RetryIdempotent? ==> CommandIn(s.commands, c.id.intent).None?)
    ensures SaveCommand(rule, s, c).value == s.(commands := s.commands + [(c.id, c)], audit := s.audit + [CommandMark(c.id)])
  {
    if CommandIn(s.commands, c.id.intent).Some? { CommandInNamed(s.commands, c.id.intent, c.snapshotId); }
    if Has(s.commands, c.id) { GetAt(s.commands, c.id); }
    else { PutNew(s.commands, c.id, c); }
  }

  /** Reading the commands after one was appended. */
  lemma CommandKept(s: Store, c: BrokerCommand)
    ensures var d := s.commands + [(c.id, c)];
      && CommandIn(d, c.id.intent).Some?
      && (CommandIn(s.commands, c.id.intent).None? ==> CommandIn(d, c.id.intent) == Some(c))
      && (forall i :: CommandIn(s.commands, i).Some? ==> CommandIn(d, i).Some?)
      && (!Has(s.commands, c.id) ==> Get(d, c.id) == Some(c))
  {
    var d := s.commands + [(c.id, c)];
    if CommandIn(s.commands, c.id.intent).None? { CommandInAdds(s.commands, c); }
    forall i | CommandIn(s.commands, i).Some? ensures CommandIn(d, i).Some? { CommandInPrefix(s.commands, d, i); }
    if !Has(s.commands, c.id) {
      PutNew(s.commands, c.id, c);
      GetPut(s.commands, c.id, c, c.id);
    }
  }

  lemma CommandWrite(rule: Uniqueness, s: Store, calls: seq<BrokerCall>, n: Id, c: BrokerCommand, t: Task)
    requires RecordsOk(s, calls, n) && SaveCommand(rule, s, c).Some?
    requires Unnamed(s.commands, c.snapshotId) && SnapshotOf(t) == Some(c.snapshotId) && c.snapshotId < n
    ensures var s2 := SaveCommand(rule, s, c).value;
      Within(s, calls, s2, calls, t) && RecordsOk(s2, calls, n)
  {
    CommandIsNew(rule, s, c);
    CommandKept(s, c);
  }

  lemma NoteWrite(s: Store, calls: seq<BrokerCall>, n: Id, tr: Transition, t: Task)
    requires RecordsOk(s, calls, n)
    ensures Within(s, calls, NoteTransition(s, tr), calls, t) && RecordsOk(NoteTransition(s, tr), calls, n)
  {
  }

  lemma JobWrite(rule: Uniqueness, s: Store, calls: seq<BrokerCall>, n: Id, proc: Process)
    requires RecordsOk(s, calls, n) && TaskOk(rule, s, calls, n, proc) && proc.task.Working?
    requires WriteOf(rule, s, proc.task.job, proc.task.stage).Some?
    ensures var s2 := WriteOf(rule, s, proc.task.job, proc.task.stage).value;
      Within(s, calls, s2, calls, proc.task) && RecordsOk(s2, calls, n)
  {
    var job, stage := proc.task.job, proc.task.stage;
    if stage.SavingIntent? { IntentWrite(rule, s, calls, n, proc); }
    else if stage.SavingCommand? { CommandWrite(rule, s, calls, n, CommandOf(job), proc.task); }
    else if SavingStage(stage) { OrderStageWrite(rule, s, calls, n, job, stage); }
    else if NotingStage(stage) { NoteStageWrite(rule, s, calls, n, job, stage); }
    else { StandStill(s, calls, proc.task); }
  }

  predicate SavingStage(stage: Stage) {
    stage.SavingPending? || stage.SavingRefusal? || stage.SavingResult? || stage.SavingUnknown?
  }

  predicate NotingStage(stage: Stage) {
    stage.NotingPending? || stage.NotingRefusal? || stage.NotingResult? || stage.NotingUnknown?
  }

  lemma OrderStageWrite(rule: Uniqueness, s: Store, calls: seq<BrokerCall>, n: Id, job: Job, stage: Stage)
    requires RecordsOk(s, calls, n) && AnswerOk(calls, job, stage) && SavingStage(stage) && WriteOf(rule, s, job, stage).Some?
    ensures var s2 := WriteOf(rule, s, job, stage).value; Within(s, calls, s2, calls, Working(job, stage)) && RecordsOk(s2, calls, n)
  {
    var t := Working(job, stage);
    match stage
    case SavingPending => OrderWrite(s, calls, n, PendingOf(job), t);
    case SavingRefusal => OrderWrite(s, calls, n, PendingOf(job).(state := Rejected), t);
    case SavingResult(o) => OrderWrite(s, calls, n, o, t);
    case SavingUnknown(o, _) => OrderWrite(s, calls, n, o.(state := SubmissionUnknown), t);
  }

  lemma NoteStageWrite(rule: Uniqueness, s: Store, calls: seq<BrokerCall>, n: Id, job: Job, stage: Stage)
    requires RecordsOk(s, calls, n) && WriteOf(rule, s, job, stage).Some? && NotingStage(stage)
    ensures var s2 := WriteOf(rule, s, job, stage).value; Within(s, calls, s2, calls, Working(job, stage)) && RecordsOk(s2, calls, n)
  {
    var to := match stage
      case NotingPending => Submitting case NotingRefusal => Rejected
      case NotingResult(o) => o.state case _ => SubmissionUnknown;
    NoteWrite(s, calls, n, Transition(job.intent.id, Move(if stage.NotingPending? then IntentPersisted else Submitting, to, false)),
              Working(job, stage));
  }

  lemma MarkWrite(s: Store, calls: seq<BrokerCall>, n: Id, s2: Store, t: Task)
    requires RecordsOk(s, calls, n) && s.audit <= s2.audit && s2 == s.(decisions := s2.decisions, audit := s2.audit)
    ensures Within(s, calls, s2, calls, t) && RecordsOk(s2, calls, n)
  {
  }

  lemma ReviewWrite(s: Store, calls: seq<BrokerCall>, n: Id, r: Review, t: Task)
    requires RecordsOk(s, calls, n) && IdOf(t) == Some(r.id) && r.id < n
    ensures Within(s, calls, SaveReview(s, r), calls, t) && RecordsOk(SaveReview(s, r), calls, n)
  {
  }

  lemma AskWrite(rule: Uniqueness, s: Store, calls: seq<BrokerCall>, n: Id, proc: Process)
    requires RecordsOk(s, calls, n) && !proc.task.Working?
    requires IdOf(proc.task).Some? ==> IdOf(proc.task).value < n
    requires Written(rule, s, proc.task).Some?
    ensures var s2 := Written(rule, s, proc.task).value; Within(s, calls, s2, calls, proc.task) && RecordsOk(s2, calls, n)
  {
    if proc.task.SavingAnswer? { ReviewWrite(s, calls, n, proc.task.review, proc.task); }
    else { MarkWrite(s, calls, n, Written(rule, s, proc.task).value, proc.task); }
  }

  lemma TaskWrite(rule: Uniqueness, s: Store, calls: seq<BrokerCall>, n: Id, proc: Process)
    requires RecordsOk(s, calls, n) && TaskOk(rule, s, calls, n, proc) && Written(rule, s, proc.task).Some?
    ensures var s2 := Written(rule, s, proc.task).value; Within(s, calls, s2, calls, proc.task) && RecordsOk(s2, calls, n)
  {
    if proc.task.Working? { JobWrite(rule, s, calls, n, proc); } else { AskWrite(rule, s, calls, n, proc); }
  }

  // ---- the mover ----------------------------------------------------------------------------

  predicate Identified(w: World, was: Task, next: Task) {
    && (IdOf(next).Some? ==> IdOf(next) == IdOf(was) || IdOf(next).value >= w.nextId)
    && (SnapshotOf(next).Some? ==> SnapshotOf(next) == SnapshotOf(was) || SnapshotOf(next).value >= w.nextId)
  }

  /** What a task may turn into: it claims no other identity and no other intent than its own. */
  ghost predicate Successor(rule: Uniqueness, w: World, was: Task, next: Task) {
    && Identified(w, was, next)
    && (Sole(rule, next) ==>
          var i := next.job.intent.id;
          || (Sole(rule, was) && i == was.job.intent.id)
          || i.fingerprint !in w.store.prints
          || (!Exclusive(rule, i) && i in w.store.intents && CommandIn(w.store.commands, i).None?))
  }

  lemma NewlyApart(rule: Uniqueness, w: World, p: nat, q: nat, next: Task)
    requires WorldInv(rule, w) && p < |w.procs| && q < |w.procs| && p != q
    requires Successor(rule, w, w.procs[p].task, next)
    ensures Apart(rule, next, w.procs[q].task) && Apart(rule, w.procs[q].task, next)
  {
    var t, u := w.procs[p].task, w.procs[q].task;
    assert Apart(rule, t, u) && Apart(rule, u, t);
    assert TaskOk(rule, w.store, w.calls, w.nextId, w.procs[q]);
    if Owning(u) { assert u.job.intent.id in w.store.intents && JobOk(w.procs[q], u.job); }
  }

  lemma SideKept(calls: seq<BrokerCall>, more: seq<BrokerCall>, t: SideTask)
    requires SideOk(calls, t) && calls <= more
    ensures SideOk(more, t)
  {
    match t
    case AskingBroker(_, local) => SentGrows(calls, more, local.intent);
    case SavingFindings(_, local, _) => SentGrows(calls, more, local.intent);
    case Fetching(_, local) => SentGrows(calls, more, local.intent);
    case SavingMatch(_, found) => SentGrows(calls, more, found.intent);
    case ReadingLocal(_, o, _) => SentGrows(calls, more, o.intent);
    case NotingUpdate(_, o, _, _) => SentGrows(calls, more, o.intent);
    case SavingUpdate(_, o, _) => SentGrows(calls, more, o.intent);
    case _ =>
  }

  /** A step of one process keeps the whole invariant if it keeps its own part of it. */
  lemma OneMoves(rule: Uniqueness, w: World, v: World, p: nat)
    requires WorldInv(rule, w) && p < |w.procs| == |v.procs| && v.procs == w.procs[p := v.procs[p]] && v.sides == w.sides && w.nextId <= v.nextId
    requires Within(w.store, w.calls, v.store, v.calls, w.procs[p].task)
    requires RecordsOk(v.store, v.calls, v.nextId) && CallsOnce(v.calls)
    requires TaskOk(rule, v.store, v.calls, v.nextId, v.procs[p]) && Successor(rule, w, w.procs[p].task, v.procs[p].task)
    ensures WorldInv(rule, v)
  {
    var t := w.procs[p].task;
    forall q | 0 <= q < |v.procs| ensures TaskOk(rule, v.store, v.calls, v.nextId, v.procs[q]) {
      if q != p {
        assert Apart(rule, w.procs[q].task, t);
        TaskKept(rule, w.store, w.calls, w.nextId, v.store, v.calls, v.nextId, t, w.procs[q]);
      }
    }
    forall a, b | 0 <= a < |v.procs| && 0 <= b < |v.procs| && a != b ensures Apart(rule, v.procs[a].task, v.procs[b].task) {
      if a == p { NewlyApart(rule, w, p, b, v.procs[p].task); }
      else if b == p { NewlyApart(rule, w, p, a, v.procs[p].task); }
      else { assert Apart(rule, w.procs[a].task, w.procs[b].task); }
    }
    forall k | 0 <= k < |v.sides| ensures SideOk(v.calls, v.sides[k]) { SideKept(w.calls, v.calls, w.sides[k]); }
  }

  // ---- completed awaits ---------------------------------------------------------------------

  /** A task with no claim on the records. */
  lemma PlainTask(rule: Uniqueness, s: Store, calls: seq<BrokerCall>, n: Id, proc: Process)
    requires IdOf(proc.task).None? && SnapshotOf(proc.task).None? && !proc.task.Working? && TrailOf(proc.task) == [] && !Cancelling(proc.task) && !ReviewNeeded(proc.task)
    ensures TaskOk(rule, s, calls, n, proc)
  {
  }

  lemma {:induction false} FirstMark(a: seq<Mark>, m: Mark)
    ensures InOrder([m], a + [m])
  {
    InOrderAdds([], a, m);
    assert [] + [m] == [m];
  }

  predicate Unclaiming(w: World, was: Task, next: Task) {
    Identified(w, was, next) && !Owning(next)
  }

  predicate Early(t: Task) {
    t.Idle? || t.Finding? || t.Surveying? || t.SavingSurvey? || t.Judging? || t.SavingDecision? || t.Reviewing?
  }

  lemma EarlyTask(rule: Uniqueness, s: Store, w: World, p: nat, input: Input)
    requires p < |w.procs| && Early(w.procs[p].task) && TaskOk(rule, s, w.calls, w.nextId, w.procs[p])
    requires Written(rule, s, w.procs[p].task) == Some(w.store) && ReviewsOk(s.reviews, w.nextId)
    ensures var v := ContinueAsk(w, p, input);
      TaskOk(rule, w.store, v.calls, v.nextId, v.procs[p]) && Unclaiming(w, w.procs[p].task, v.procs[p].task)
  {
    var v := ContinueAsk(w, p, input);
    EarlyFollows(w, p, input);
    if v.procs[p].task.SavingDecision? || v.procs[p].task.SavingAnswer? {
      NamedTask(rule, w.store, v.calls, v.nextId, v.procs[p]);
    } else {
      PlainTask(rule, w.store, v.calls, v.nextId, v.procs[p]);
    }
  }

  lemma EarlyFollows(w: World, p: nat, input: Input)
    requires p < |w.procs| && Early(w.procs[p].task) && ReviewsOk(w.store.reviews, w.nextId)
    ensures var v := ContinueAsk(w, p, input); var t := v.procs[p].task;
      && Unclaiming(w, w.procs[p].task, t) && (Early(t) || t.SavingAnswer?)
      && (t.SavingDecision? ==> t.decisionId < v.nextId)
      && (t.SavingAnswer? ==> t.review.id < v.nextId && t.review.id !in w.store.reviews)
  {
  }

  /** A task that carries a new identity and nothing else. */
  lemma NamedTask(rule: Uniqueness, s: Store, calls: seq<BrokerCall>, n: Id, proc: Process)
    requires (proc.task.SavingDecision? && proc.task.decisionId < n)
             || (proc.task.SavingAnswer? && proc.task.review.id < n && proc.task.review.id !in s.reviews)
    ensures TaskOk(rule, s, calls, n, proc)
  {
  }

  lemma AnsweredTask(rule: Uniqueness, s: Store, w: World, p: nat, input: Input)
    requires p < |w.procs| && w.procs[p].task.SavingAnswer? && TaskOk(rule, s, w.calls, w.nextId, w.procs[p])
    requires w.store == SaveReview(s, w.procs[p].task.review)
    ensures var v := ContinueAsk(w, p, input);
      TaskOk(rule, w.store, v.calls, v.nextId, v.procs[p]) && Unclaiming(w, w.procs[p].task, v.procs[p].task)
  {
    FirstMark(s.audit, ReviewMark(w.procs[p].task.review.id));
  }

  lemma RejudgedTask(rule: Uniqueness, w: World, p: nat, input: Input)
    requires p < |w.procs| && w.procs[p].task.Rejudging? && TaskOk(rule, w.store, w.calls, w.nextId, w.procs[p])
    requires RecordsOk(w.store, w.calls, w.nextId)
    ensures var v := ContinueAsk(w, p, input);
      TaskOk(rule, w.store, v.calls, v.nextId, v.procs[p]) && Unclaiming(w, w.procs[p].task, v.procs[p].task)
  {
    var v := ContinueAsk(w, p, input);
    assert TrailOf(v.procs[p].task) == TrailOf(w.procs[p].task);
  }

  lemma RedecidedTask(rule: Uniqueness, s: Store, w: World, p: nat, input: Input)
    requires p < |w.procs| && w.procs[p].task.SavingRedecision? && TaskOk(rule, s, w.calls, w.nextId, w.procs[p])
    requires w.store == SaveDecision(s, w.procs[p].task.judged.decisionId, w.procs[p].task.allowed)
    ensures var v := ContinueAsk(w, p, input);
      TaskOk(rule, w.store, v.calls, v.nextId, v.procs[p]) && Unclaiming(w, w.procs[p].task, v.procs[p].task)
  {
    var t := w.procs[p].task;
    InOrderAdds([ReviewMark(t.review.id)], s.audit, DecisionMark(t.judged.decisionId));
    assert [ReviewMark(t.review.id)] + [DecisionMark(t.judged.decisionId)] == [ReviewMark(t.review.id), DecisionMark(t.judged.decisionId)];
    var v := ContinueAsk(w, p, input);
    if v.procs[p].task.Idle? { PlainTask(rule, w.store, v.calls, v.nextId, v.procs[p]); }
  }

  lemma CancelTask(rule: Uniqueness, s: Store, w: World, p: nat, input: Input)
    requires p < |w.procs| && Cancelling(w.procs[p].task) && !w.procs[p].task.Working? && TaskOk(rule, s, w.calls, w.nextId, w.procs[p])
    requires Written(rule, s, w.procs[p].task) == Some(w.store) && CommandsOk(s.commands, w.nextId)
    ensures var v := ContinueAsk(w, p, input);
      TaskOk(rule, w.store, v.calls, v.nextId, v.procs[p]) && Unclaiming(w, w.procs[p].task, v.procs[p].task)
  {
    var v := ContinueAsk(w, p, input);
    CancelFollows(s, w, p, input);
    CancellingTask(rule, w.store, v.calls, v.nextId, v.procs[p]);
  }

  /** A cancellation up to its intent claims nothing but its snapshot. */
  lemma CancelFollows(s: Store, w: World, p: nat, input: Input)
    requires p < |w.procs| && Cancelling(w.procs[p].task) && !w.procs[p].task.Working? && w.procs[p].latch == {}
    requires w.store.commands == s.commands && CommandsOk(s.commands, w.nextId) && NamesOk(s, w.nextId, w.procs[p].task)
    ensures var v := ContinueAsk(w, p, input); var t := v.procs[p].task;
      && NamesOk(w.store, v.nextId, t) && Unclaiming(w, w.procs[p].task, t) && v.procs[p].latch == {}
      && (t.Idle? || (Cancelling(t) && (t.Working? ==> t.stage.SavingIntent? && JobOk(v.procs[p], t.job))))
  {
  }

  lemma CancellingTask(rule: Uniqueness, s: Store, calls: seq<BrokerCall>, n: Id, proc: Process)
    requires NamesOk(s, n, proc.task) && proc.latch == {}
    requires proc.task.Idle? || (Cancelling(proc.task) && (proc.task.Working? ==> proc.task.stage.SavingIntent? && JobOk(proc, proc.task.job)))
    ensures TaskOk(rule, s, calls, n, proc)
  {
    assert TrailOf(proc.task) == [];
  }

  lemma AskShape(w: World, p: nat, input: Input)
    requires p < |w.procs|
    ensures var v := ContinueAsk(w, p, input);
      && w.nextId <= v.nextId && |v.procs| == |w.procs| && v.calls == w.calls && v.store == w.store && v.sides == w.sides
      && v.procs == w.procs[p := v.procs[p]]
  {
    var v := ContinueAsk(w, p, input);
    assert w.procs == w.procs[p := w.procs[p]];
  }

  lemma AskTask(rule: Uniqueness, w: World, p: nat, input: Input)
    requires p < |w.procs| && !w.procs[p].task.Working? && RecordsOk(w.store, w.calls, w.nextId)
    requires TaskOk(rule, w.store, w.calls, w.nextId, w.procs[p]) && Written(rule, w.store, w.procs[p].task).Some?
    ensures var v := ContinueAsk(w.(store := Written(rule, w.store, w.procs[p].task).value), p, input); var next := v.procs[p].task;
      && TaskOk(rule, v.store, v.calls, v.nextId, v.procs[p])
      && Unclaiming(w, w.procs[p].task, next)
  {
    var t := w.procs[p].task;
    var u := w.(store := Written(rule, w.store, t).value);
    AskShape(u, p, input);
    if Early(t) { EarlyTask(rule, w.store, u, p, input); }
    else if t.SavingAnswer? { AnsweredTask(rule, w.store, u, p, input); }
    else if t.Rejudging? { RejudgedTask(rule, u, p, input); }
    else if t.SavingRedecision? { RedecidedTask(rule, w.store, u, p, input); }
    else { CancelTask(rule, w.store, u, p, input); }
  }

  lemma AskMoves(rule: Uniqueness, w: World, p: nat, input: Input)
    requires WorldInv(rule, w) && p < |w.procs| && !w.procs[p].task.Working? && Written(rule, w.store, w.procs[p].task).Some?
    ensures WorldInv(rule, ContinueAsk(w.(store := Written(rule, w.store, w.procs[p].task).value), p, input))
  {
    var u := w.(store := Written(rule, w.store, w.procs[p].task).value);
    var v := ContinueAsk(u, p, input);
    AskWrite(rule, w.store, w.calls, w.nextId, w.procs[p]);
    AskShape(u, p, input);
    AskTask(rule, w, p, input);
    RecordsLater(u.store, w.calls, w.nextId, v.nextId);
    OneMoves(rule, w, v, p);
  }

  lemma RecordsLater(s: Store, calls: seq<BrokerCall>, n: Id, m: Id)
    requires RecordsOk(s, calls, n) && n <= m
    ensures RecordsOk(s, calls, m)
  {
  }

  lemma EquippingTask(rule: Uniqueness, s: Store, calls: seq<BrokerCall>, n: Id, proc: Process, job: Job, schema: Id)
    requires TaskOk(rule, s, calls, n, proc) && proc.task == Working(job, Equipping)
    ensures TaskOk(rule, s, calls, n,
      proc.(task := Working(job.(schema := schema), if job.PlaceJob? then SavingIntent else SavingCommand)))
  {
    assert TrailOf(Working(job.(schema := schema), if job.PlaceJob? then SavingIntent else SavingCommand)) == TrailOf(proc.task);
  }

  /** One more record on a placement's trail. */
  lemma {:induction false} TrailAdds(job: Job, stage: Stage, next: Stage, audit: seq<Mark>, m: Mark)
    requires job.PlaceJob? ==> InOrder(StageTrail(job, stage), audit) && StageTrail(job, next) == StageTrail(job, stage) + [m]
    ensures InOrder(TrailOf(Working(job, next)), audit + [m])
  {
    if job.PlaceJob? { InOrderAdds(StageTrail(job, stage), audit, m); }
  }

  /** What makes the await of an owned job well placed. */
  lemma OwnedTask(rule: Uniqueness, s: Store, calls: seq<BrokerCall>, n: Id, proc: Process, job: Job, stage: Stage)
    requires proc.task == Working(job, stage) && Owning(proc.task) && JobOk(proc, job) && CommandOf(job).snapshotId < n
    requires Uncommanded(proc.task) ==> Unnamed(s.commands, CommandOf(job).snapshotId)
    requires OwningOk(rule, s, calls, job, stage)
    requires InOrder(TrailOf(proc.task), s.audit)
    requires job.PlaceJob? ==> job.intent.decisionId < n && AcceptedReview(s, job.intent.reviewId)
    requires job.CancelJob? ==> proc.latch == {}
    ensures TaskOk(rule, s, calls, n, proc)
  {
  }

  lemma OwnedIntentTask(rule: Uniqueness, s: Store, calls: seq<BrokerCall>, n: Id, proc: Process, job: Job)
    requires TaskOk(rule, s, calls, n, proc) && proc.task == Working(job, SavingIntent)
    requires !InUse(s, job.intent) && !SentPrint(calls, job.intent.id.fingerprint)
    ensures TaskOk(rule, SaveIntent(rule, s, job.intent).value, calls, n,
      proc.(task := Working(job, if job.PlaceJob? then SavingCommand else Equipping)))
  {
    var next := if job.PlaceJob? then SavingCommand else Equipping;
    TrailAdds(job, SavingIntent, SavingCommand, s.audit, IntentMark(job.intent.id));
    OwnedTask(rule, SaveIntent(rule, s, job.intent).value, calls, n, proc.(task := Working(job, next)), job, next);
  }

  /** What was sent under the fingerprint has its command on record. */
  lemma {:induction false} UncommandedIsUnsent(s: Store, calls: seq<BrokerCall>, n: Id, i: IntentId)
    requires RecordsOk(s, calls, n) && i in s.intents && CommandIn(s.commands, i).None?
    ensures !SentPrint(calls, i.fingerprint)
  {
    forall k | 0 <= k < |calls| ensures calls[k].command.id.intent.fingerprint != i.fingerprint {
      assert calls[k].command.id.intent in s.intents;
    }
  }

  lemma CommandTask(rule: Uniqueness, s: Store, calls: seq<BrokerCall>, n: Id, proc: Process, job: Job)
    requires TaskOk(rule, s, calls, n, proc) && proc.task == Working(job, SavingCommand) && SaveCommand(rule, s, CommandOf(job)).Some?
    requires RecordsOk(s, calls, n)
    ensures TaskOk(rule, SaveCommand(rule, s, CommandOf(job)).value, calls, n, proc.(task := Working(job, SavingPending)))
  {
    CommandIsNew(rule, s, CommandOf(job));
    CommandOwned(rule, s, calls, n, job);
    CommandTrail(job, s.audit);
    CommandedTask(rule, s, calls, n, proc, job, SaveCommand(rule, s, CommandOf(job)).value);
  }

  lemma CommandedTask(rule: Uniqueness, s: Store, calls: seq<BrokerCall>, n: Id, proc: Process, job: Job, s2: Store)
    requires TaskOk(rule, s, calls, n, proc) && proc.task == Working(job, SavingCommand) && s2.reviews == s.reviews
    requires OwningOk(rule, s2, calls, job, SavingPending) && InOrder(TrailOf(Working(job, SavingPending)), s2.audit)
    ensures TaskOk(rule, s2, calls, n, proc.(task := Working(job, SavingPending)))
  {
    OwnedTask(rule, s2, calls, n, proc.(task := Working(job, SavingPending)), job, SavingPending);
  }

  lemma {:induction false} CommandTrail(job: Job, audit: seq<Mark>)
    requires InOrder(TrailOf(Working(job, SavingCommand)), audit)
    ensures InOrder(TrailOf(Working(job, SavingPending)), audit + [CommandMark(CommandOf(job).id)])
  {
    TrailAdds(job, SavingCommand, SavingPending, audit, CommandMark(CommandOf(job).id));
  }

  lemma CommandOwned(rule: Uniqueness, s: Store, calls: seq<BrokerCall>, n: Id, job: Job)
    requires OwningOk(rule, s, calls, job, SavingCommand) && RecordsOk(s, calls, n)
    requires Unnamed(s.commands, CommandOf(job).snapshotId) && SaveCommand(rule, s, CommandOf(job)).Some?
    ensures OwningOk(rule, SaveCommand(rule, s, CommandOf(job)).value, calls, job, SavingPending)
  {
    CommandIsNew(rule, s, CommandOf(job));
    CommandKept(s, CommandOf(job));
    if rule.RetryIdempotent? { UncommandedIsUnsent(s, calls, n, job.intent.id); }
  }

  lemma PendingTask(rule: Uniqueness, s: Store, calls: seq<BrokerCall>, n: Id, proc: Process, job: Job)
    requires TaskOk(rule, s, calls, n, proc) && proc.task == Working(job, SavingPending) && SaveOrder(s, PendingOf(job)).Some?
    ensures TaskOk(rule, SaveOrder(s, PendingOf(job)).value, calls, n, proc.(task := Working(job, NotingPending)))
  {
    TrailAdds(job, SavingPending, NotingPending, s.audit, OrderMark(PendingOf(job).orderId));
    OwnedTask(rule, SaveOrder(s, PendingOf(job)).value, calls, n, proc.(task := Working(job, NotingPending)), job, NotingPending);
  }

  lemma RefusalTask(rule: Uniqueness, s: Store, calls: seq<BrokerCall>, n: Id, proc: Process, job: Job, stage: Stage, s2: Store)
    requires TaskOk(rule, s, calls, n, proc) && proc.task == Working(job, stage) && (stage.NotingPending? || stage.SavingRefusal?)
    requires s2.intents == s.intents && s2.reviews == s.reviews && s2.commands == s.commands
    ensures TaskOk(rule, s2, calls, n, proc.(task := Working(job, if stage.NotingPending? then SavingRefusal else NotingRefusal)))
  {
    var next := if stage.NotingPending? then SavingRefusal else NotingRefusal;
    RefusalOwned(rule, s, calls, job, stage, s2, next);
    OwnedTask(rule, s2, calls, n, proc.(task := Working(job, next)), job, next);
  }

  lemma RefusalOwned(rule: Uniqueness, s: Store, calls: seq<BrokerCall>, job: Job, stage: Stage, s2: Store, next: Stage)
    requires OwningOk(rule, s, calls, job, stage) && (stage.NotingPending? || stage.SavingRefusal?)
    requires s2.intents == s.intents && s2.commands == s.commands && (next.SavingRefusal? || next.NotingRefusal?)
    ensures OwningOk(rule, s2, calls, job, next)
  {
  }

  lemma SettledTask(rule: Uniqueness, s: Store, calls: seq<BrokerCall>, n: Id, proc: Process, job: Job, stage: Stage,
                    s2: Store, more: seq<BrokerCall>, next: Stage)
    requires TaskOk(rule, s, calls, n, proc) && proc.task == Working(job, stage) && AnswerOk(more, job, next)
    requires next.Calling? || next.SavingResult? || next.NotingResult? || next.SavingUnknown? || next.NotingUnknown?
    ensures TaskOk(rule, s2, more, n, proc.(task := Working(job, next)))
  {
  }

  /** The call itself: the intent was sent by nobody before. */
  lemma CallTask(calls: seq<BrokerCall>, i: IntentId, c: BrokerCall)
    requires CallsOnce(calls) && !SentPrint(calls, i.fingerprint) && c.command.id.intent == i
    ensures CallsOnce(calls + [c]) && Sent(calls + [c], i)
  {
    var more := calls + [c];
    PrintsGrow(calls, c, i.fingerprint);
    forall j, k | 0 <= j < k < |more|
      ensures more[j].command.id.intent.fingerprint != more[k].command.id.intent.fingerprint
    {
      assert more[j] == calls[j];
      if k < |calls| { assert more[k] == calls[k]; }
    }
  }

  // ---- every event --------------------------------------------------------------------------

  /** One process writes and moves on without calling the broker. */
  lemma Settles(rule: Uniqueness, w: World, s2: Store, p: nat, proc: Process)
    requires WorldInv(rule, w) && p < |w.procs|
    requires Within(w.store, w.calls, s2, w.calls, w.procs[p].task) && RecordsOk(s2, w.calls, w.nextId)
    requires TaskOk(rule, s2, w.calls, w.nextId, proc) && Successor(rule, w, w.procs[p].task, proc.task)
    ensures WorldInv(rule, With(w.(store := s2), p, proc))
  {
    OneMoves(rule, w, With(w.(store := s2), p, proc), p);
  }

  lemma GatesAside(rule: Uniqueness, s: Store, calls: seq<BrokerCall>, n: Id, proc: Process, other: Process)
    requires TaskOk(rule, s, calls, n, proc) && other == proc.(gates := other.gates)
    ensures TaskOk(rule, s, calls, n, other)
  {
  }

  lemma Rests(rule: Uniqueness, w: World, s2: Store, p: nat, proc: Process)
    requires WorldInv(rule, w) && p < |w.procs| && proc.task.Idle?
    requires Within(w.store, w.calls, s2, w.calls, w.procs[p].task) && RecordsOk(s2, w.calls, w.nextId)
    ensures WorldInv(rule, With(w.(store := s2), p, proc))
  {
    PlainTask(rule, s2, w.calls, w.nextId, proc);
    Settles(rule, w, s2, p, proc);
  }

  lemma StandStill(s: Store, calls: seq<BrokerCall>, t: Task)
    ensures Within(s, calls, s, calls, t)
  {
  }

  lemma EquippingMoves(rule: Uniqueness, w: World, p: nat, job: Job, input: Input)
    requires WorldInv(rule, w) && p < |w.procs| && w.procs[p].task == Working(job, Equipping)
    ensures WorldInv(rule, ContinueJob(w, p, job, Equipping, input))
  {
    var proc := w.procs[p];
    StandStill(w.store, w.calls, proc.task);
    if input.Capability? {
      var v := ContinueJob(w, p, job, Equipping, input);
      AtTask(rule, w, p);
      if v.procs[p].task.Idle? { Rests(rule, w, w.store, p, v.procs[p]); }
      else { EquippedMoves(rule, w, p, job, input.schema); }
    }
  }

  lemma EquippedMoves(rule: Uniqueness, w: World, p: nat, job: Job, schema: Id)
    requires WorldInv(rule, w) && p < |w.procs| && w.procs[p].task == Working(job, Equipping)
    ensures WorldInv(rule, MoveTo(w, p, Working(job.(schema := schema), if job.PlaceJob? then SavingIntent else SavingCommand)))
  {
    var proc := w.procs[p];
    AtTask(rule, w, p);
    StandStill(w.store, w.calls, proc.task);
    EquippingTask(rule, w.store, w.calls, w.nextId, proc, job, schema);
    EquippingFollows(rule, w, job, schema);
    Settles(rule, w, w.store, p, proc.(task := Working(job.(schema := schema), if job.PlaceJob? then SavingIntent else SavingCommand)));
  }

  lemma EquippingFollows(rule: Uniqueness, w: World, job: Job, schema: Id)
    ensures Successor(rule, w, Working(job, Equipping), Working(job.(schema := schema), if job.PlaceJob? then SavingIntent else SavingCommand))
  {
  }

  lemma IntentMoves(rule: Uniqueness, w: World, p: nat, job: Job)
    requires WorldInv(rule, w) && p < |w.procs| && w.procs[p].task == Working(job, SavingIntent) && SaveIntent(rule, w.store, job.intent).Some?
    ensures WorldInv(rule, MoveTo(w.(store := SaveIntent(rule, w.store, job.intent).value), p,
      Working(job, if job.PlaceJob? then SavingCommand else Equipping)))
  {
    var proc := w.procs[p];
    AtTask(rule, w, p);
    IntentWrite(rule, w.store, w.calls, w.nextId, proc);
    IntentTask(rule, w.store, w.calls, w.nextId, proc, job);
    IntentFollows(rule, w, proc, job);
    Settles(rule, w, SaveIntent(rule, w.store, job.intent).value, p,
            proc.(task := Working(job, if job.PlaceJob? then SavingCommand else Equipping)));
  }

  lemma IntentTask(rule: Uniqueness, s: Store, calls: seq<BrokerCall>, n: Id, proc: Process, job: Job)
    requires TaskOk(rule, s, calls, n, proc) && RecordsOk(s, calls, n) && proc.task == Working(job, SavingIntent)
    requires SaveIntent(rule, s, job.intent).Some?
    ensures TaskOk(rule, SaveIntent(rule, s, job.intent).value, calls, n,
      proc.(task := Working(job, if job.PlaceJob? then SavingCommand else Equipping)))
  {
    assert JobOk(proc, job);
    if Exclusive(rule, job.intent.id) {
      PlacementIsNew(rule, s, calls, n, proc);
      OwnedIntentTask(rule, s, calls, n, proc, job);
    } else {
      IntentWrite(rule, s, calls, n, proc);
      SharedIntentTask(rule, s, calls, n, proc, job, SaveIntent(rule, s, job.intent).value);
    }
  }

  /** A cancellation's intent, new or repeated. */
  lemma SharedIntentTask(rule: Uniqueness, s: Store, calls: seq<BrokerCall>, n: Id, proc: Process, job: Job, s2: Store)
    requires TaskOk(rule, s, calls, n, proc) && proc.task == Working(job, SavingIntent) && job.CancelJob? && !Exclusive(rule, job.intent.id)
    requires job.intent.id in s2.intents && s2.intents[job.intent.id] == job.intent && s2.commands == s.commands
    ensures TaskOk(rule, s2, calls, n, proc.(task := Working(job, Equipping)))
  {
  }

  lemma IntentFollows(rule: Uniqueness, w: World, proc: Process, job: Job)
    requires TaskOk(rule, w.store, w.calls, w.nextId, proc) && RecordsOk(w.store, w.calls, w.nextId)
    requires proc.task == Working(job, SavingIntent) && SaveIntent(rule, w.store, job.intent).Some?
    ensures Successor(rule, w, proc.task, Working(job, if job.PlaceJob? then SavingCommand else Equipping))
  {
    if Exclusive(rule, job.intent.id) { PlacementIsNew(rule, w.store, w.calls, w.nextId, proc); }
  }

  lemma SameJobFollows(rule: Uniqueness, w: World, job: Job, stage: Stage, next: Stage)
    requires Sole(rule, Working(job, next)) ==> Sole(rule, Working(job, stage))
    ensures Successor(rule, w, Working(job, stage), Working(job, next))
  {
  }

  /** A task whose command is on record goes on with the same job. */
  lemma StageMoves(rule: Uniqueness, w: World, s2: Store, p: nat, job: Job, stage: Stage, next: Stage, proc2: Process)
    requires WorldInv(rule, w) && p < |w.procs| && w.procs[p].task == Working(job, stage) && proc2.task == Working(job, next)
    requires Sole(rule, Working(job, next)) ==> Sole(rule, Working(job, stage))
    requires Within(w.store, w.calls, s2, w.calls, w.procs[p].task) && RecordsOk(s2, w.calls, w.nextId)
    requires TaskOk(rule, s2, w.calls, w.nextId, proc2)
    ensures WorldInv(rule, With(w.(store := s2), p, proc2))
  {
    SameJobFollows(rule, w, job, stage, next);
    Settles(rule, w, s2, p, proc2);
  }

  /** What an invariant world says of the process about to move. */
  lemma AtTask(rule: Uniqueness, w: World, p: nat)
    requires WorldInv(rule, w) && p < |w.procs|
    ensures TaskOk(rule, w.store, w.calls, w.nextId, w.procs[p]) && RecordsOk(w.store, w.calls, w.nextId) && CallsOnce(w.calls)
  {
  }

  lemma CommandFollows(rule: Uniqueness, w: World, proc: Process, job: Job)
    requires TaskOk(rule, w.store, w.calls, w.nextId, proc) && proc.task == Working(job, SavingCommand)
    requires SaveCommand(rule, w.store, CommandOf(job)).Some?
    ensures Successor(rule, w, Working(job, SavingCommand), Working(job, SavingPending))
  {
    CommandIsNew(rule, w.store, CommandOf(job));
  }

  lemma CommandMoves(rule: Uniqueness, w: World, p: nat, job: Job)
    requires WorldInv(rule, w) && p < |w.procs| && w.procs[p].task == Working(job, SavingCommand)
    requires SaveCommand(rule, w.store, CommandOf(job)).Some?
    ensures WorldInv(rule, MoveTo(w.(store := SaveCommand(rule, w.store, CommandOf(job)).value), p, Working(job, SavingPending)))
  {
    var proc, s2 := w.procs[p], SaveCommand(rule, w.store, CommandOf(job)).value;
    AtTask(rule, w, p);
    JobWrite(rule, w.store, w.calls, w.nextId, proc);
    CommandTask(rule, w.store, w.calls, w.nextId, proc, job);
    CommandFollows(rule, w, proc, job);
    Settles(rule, w, s2, p, proc.(task := Working(job, SavingPending)));
  }

  lemma PendingMoves(rule: Uniqueness, w: World, p: nat, job: Job)
    requires WorldInv(rule, w) && p < |w.procs| && w.procs[p].task == Working(job, SavingPending) && SaveOrder(w.store, PendingOf(job)).Some?
    ensures WorldInv(rule, MoveTo(w.(store := SaveOrder(w.store, PendingOf(job)).value), p, Working(job, NotingPending)))
  {
    var proc := w.procs[p];
    AtTask(rule, w, p);
    JobWrite(rule, w.store, w.calls, w.nextId, proc);
    PendingTask(rule, w.store, w.calls, w.nextId, proc, job);
    StageMoves(rule, w, SaveOrder(w.store, PendingOf(job)).value, p, job, SavingPending, NotingPending,
               proc.(task := Working(job, NotingPending)));
  }

  lemma RefusalMoves(rule: Uniqueness, w: World, p: nat, job: Job)
    requires WorldInv(rule, w) && p < |w.procs| && w.procs[p].task == Working(job, SavingRefusal)
    requires WriteOf(rule, w.store, job, SavingRefusal).Some?
    ensures WorldInv(rule, MoveTo(w.(store := WriteOf(rule, w.store, job, SavingRefusal).value), p, Working(job, NotingRefusal)))
  {
    var proc, s2 := w.procs[p], WriteOf(rule, w.store, job, SavingRefusal).value;
    AtTask(rule, w, p);
    JobWrite(rule, w.store, w.calls, w.nextId, proc);
    RefusalTask(rule, w.store, w.calls, w.nextId, proc, job, SavingRefusal, s2);
    StageMoves(rule, w, s2, p, job, SavingRefusal, NotingRefusal, proc.(task := Working(job, NotingRefusal)));
  }

  lemma OwningOf(rule: Uniqueness, s: Store, calls: seq<BrokerCall>, n: Id, proc: Process)
    requires TaskOk(rule, s, calls, n, proc) && Owning(proc.task)
    ensures OwningOk(rule, s, calls, proc.task.job, proc.task.stage) && JobOk(proc, proc.task.job)
  {
  }

  /** The invariant's part that concerns the caller itself. */
  lemma CallRecords(rule: Uniqueness, s: Store, calls: seq<BrokerCall>, n: Id, proc: Process, job: Job, c: BrokerCall)
    requires TaskOk(rule, s, calls, n, proc) && proc.task == Working(job, NotingPending) && RecordsOk(s, calls, n)
    requires CallsOnce(calls) && c.command == CommandOf(job)
    ensures var s2 := WriteOf(rule, s, job, NotingPending).value; var more := calls + [c];
      && Within(s, calls, s2, more, proc.task) && RecordsOk(s2, more, n) && CallsOnce(more)
      && TaskOk(rule, s2, more, n, proc.(task := Working(job, Calling)))
  {
    var s2 := WriteOf(rule, s, job, NotingPending).value;
    JobWrite(rule, s, calls, n, proc);
    OwningOf(rule, s, calls, n, proc);
    CallTask(calls, job.intent.id, c);
    RecordsSent(s2, calls, n, c);
    SettledTask(rule, s, calls, n, proc, job, NotingPending, s2, calls + [c], Calling);
    CallWithin(s, calls, s2, c, proc.task);
  }

  lemma CallMoves(rule: Uniqueness, w: World, p: nat, job: Job)
    requires WorldInv(rule, w) && p < |w.procs| && w.procs[p].task == Working(job, NotingPending)
    ensures WorldInv(rule, MoveTo(w.(store := WriteOf(rule, w.store, job, NotingPending).value), p, Working(job, Calling))
      .(calls := w.calls + [BrokerCall(p, CommandOf(job))]))
  {
    var s2 := WriteOf(rule, w.store, job, NotingPending).value;
    var more := w.calls + [BrokerCall(p, CommandOf(job))];
    AtTask(rule, w, p);
    CallRecords(rule, w.store, w.calls, w.nextId, w.procs[p], job, BrokerCall(p, CommandOf(job)));
    SameJobFollows(rule, w, job, NotingPending, Calling);
    OneMoves(rule, w, MoveTo(w.(store := s2), p, Working(job, Calling)).(calls := more), p);
  }

  lemma CallWithin(s: Store, calls: seq<BrokerCall>, s2: Store, c: BrokerCall, t: Task)
    requires Within(s, calls, s2, calls, t) && Commanded(t) && c.command == CommandOf(t.job)
    ensures Within(s, calls, s2, calls + [c], t)
  {
  }

  lemma RefuseMoves(rule: Uniqueness, w: World, p: nat, job: Job, proc2: Process)
    requires WorldInv(rule, w) && p < |w.procs| && w.procs[p].task == Working(job, NotingPending)
    requires proc2 == w.procs[p].(task := Working(job, SavingRefusal), gates := proc2.gates)
    ensures WorldInv(rule, With(w.(store := WriteOf(rule, w.store, job, NotingPending).value), p, proc2))
  {
    var proc, s2 := w.procs[p], WriteOf(rule, w.store, job, NotingPending).value;
    AtTask(rule, w, p);
    JobWrite(rule, w.store, w.calls, w.nextId, proc);
    RefusalTask(rule, w.store, w.calls, w.nextId, proc, job, NotingPending, s2);
    GatesAside(rule, s2, w.calls, w.nextId, proc.(task := Working(job, SavingRefusal)), proc2);
    StageMoves(rule, w, s2, p, job, NotingPending, SavingRefusal, proc2);
  }

  lemma RecordsSent(s: Store, calls: seq<BrokerCall>, n: Id, c: BrokerCall)
    requires RecordsOk(s, calls, n) && c.command.id.intent in s.intents && c.command.id.intent in s.orders
    requires CommandIn(s.commands, c.command.id.intent).Some?
    ensures RecordsOk(s, calls + [c], n)
  {
    forall i | Sent(calls, i) ensures Sent(calls + [c], i) { SentGrows(calls, calls + [c], i); }
  }

  /** After the call the task only files what it knows under the intent it sent. */
  lemma AnswerMoves(rule: Uniqueness, w: World, s2: Store, p: nat, job: Job, stage: Stage, next: Stage, proc2: Process)
    requires WorldInv(rule, w) && p < |w.procs| && w.procs[p].task == Working(job, stage) && AnswerOk(w.calls, job, next)
    requires Within(w.store, w.calls, s2, w.calls, w.procs[p].task) && RecordsOk(s2, w.calls, w.nextId)
    requires next.SavingResult? || next.NotingResult? || next.SavingUnknown? || next.NotingUnknown?
    requires proc2 == w.procs[p].(task := Working(job, next), gates := proc2.gates, latch := proc2.latch)
    ensures WorldInv(rule, With(w.(store := s2), p, proc2))
  {
    AtTask(rule, w, p);
    AnswerTask(rule, w.store, w.calls, w.nextId, w.procs[p], job, stage, s2, next, proc2);
    StageMoves(rule, w, s2, p, job, stage, next, proc2);
  }

  lemma AnswerTask(rule: Uniqueness, s: Store, calls: seq<BrokerCall>, n: Id, proc: Process, job: Job, stage: Stage, s2: Store,
                   next: Stage, proc2: Process)
    requires TaskOk(rule, s, calls, n, proc) && proc.task == Working(job, stage) && AnswerOk(calls, job, next)
    requires next.SavingResult? || next.NotingResult? || next.SavingUnknown? || next.NotingUnknown?
    requires proc2 == proc.(task := Working(job, next), gates := proc2.gates, latch := proc2.latch)
    ensures TaskOk(rule, s2, calls, n, proc2)
  {
    SettledTask(rule, s, calls, n, proc, job, stage, s2, calls, next);
    LatchAside(rule, s2, calls, n, proc.(task := Working(job, next)), proc2);
  }

  lemma LatchAside(rule: Uniqueness, s: Store, calls: seq<BrokerCall>, n: Id, proc: Process, other: Process)
    requires TaskOk(rule, s, calls, n, proc) && !Cancelling(proc.task)
    requires other == proc.(gates := other.gates, latch := other.latch)
    ensures TaskOk(rule, s, calls, n, other)
  {
  }

  lemma ResponseMoves(rule: Uniqueness, w: World, p: nat, job: Job, o: Order)
    requires WorldInv(rule, w) && p < |w.procs| && w.procs[p].task == Working(job, Calling)
    ensures WorldInv(rule, With(w, p, Received(w.procs[p], job, o)))
  {
    var proc := w.procs[p];
    var next := Received(proc, job, o);
    StandStill(w.store, w.calls, proc.task);
    assert TaskOk(rule, w.store, w.calls, w.nextId, proc);
    if next.task.Idle? { Rests(rule, w, w.store, p, next); }
    else { AnswerMoves(rule, w, w.store, p, job, Calling, next.task.stage, next); }
  }

  lemma JobMoves(rule: Uniqueness, w: World, p: nat, job: Job, stage: Stage, input: Input)
    requires WorldInv(rule, w) && p < |w.procs| && w.procs[p].task == Working(job, stage) && WriteOf(rule, w.store, job, stage).Some?
    ensures WorldInv(rule, ContinueJob(w.(store := WriteOf(rule, w.store, job, stage).value), p, job, stage, input))
  {
    match stage
    case Equipping => EquippingMoves(rule, w, p, job, input);
    case SavingIntent => IntentMoves(rule, w, p, job);
    case SavingCommand => CommandMoves(rule, w, p, job);
    case SavingPending => PendingMoves(rule, w, p, job);
    case SavingRefusal => RefusalMoves(rule, w, p, job);
    case NotingPending => GateMoves(rule, w, p, job, input);
    case _ => SentMoves(rule, w, p, job, stage, input);
  }

  lemma GateMoves(rule: Uniqueness, w: World, p: nat, job: Job, input: Input)
    requires WorldInv(rule, w) && p < |w.procs| && w.procs[p].task == Working(job, NotingPending)
    ensures WorldInv(rule, ContinueJob(w.(store := WriteOf(rule, w.store, job, NotingPending).value), p, job, NotingPending, input))
  {
    var u := w.(store := WriteOf(rule, w.store, job, NotingPending).value);
    GateResult(u, p, job, input);
    if GateOpen(w.procs[p], job) { CallMoves(rule, w, p, job); }
    else { RefuseMoves(rule, w, p, job, Refusing(w.procs[p], job)); }
  }

  /** The process whose gate has closed. */
  function Refusing(proc: Process, job: Job): Process {
    (if job.PlaceJob? && proc.gates.mode == job.ask.mode && proc.latch != {} then Halt(proc) else proc).(task := Working(job, SavingRefusal))
  }

  lemma GateResult(w: World, p: nat, job: Job, input: Input)
    requires p < |w.procs|
    ensures ContinueJob(w, p, job, NotingPending, input) ==
      if GateOpen(w.procs[p], job) then MoveTo(w, p, Working(job, Calling)).(calls := w.calls + [BrokerCall(p, CommandOf(job))])
      else With(w, p, Refusing(w.procs[p], job))
  {
  }

  lemma SentMoves(rule: Uniqueness, w: World, p: nat, job: Job, stage: Stage, input: Input)
    requires WorldInv(rule, w) && p < |w.procs| && w.procs[p].task == Working(job, stage) && WriteOf(rule, w.store, job, stage).Some?
    requires stage.Calling? || stage.SavingResult? || stage.SavingUnknown? || stage.NotingRefusal? || stage.NotingResult? || stage.NotingUnknown?
    ensures WorldInv(rule, ContinueJob(w.(store := WriteOf(rule, w.store, job, stage).value), p, job, stage, input))
  {
    var proc, s2 := w.procs[p], WriteOf(rule, w.store, job, stage).value;
    if stage.Calling? {
      if input.Response? { ResponseMoves(rule, w, p, job, input.order); }
    } else {
      AtTask(rule, w, p);
      JobWrite(rule, w.store, w.calls, w.nextId, proc);
      if stage.SavingResult? || stage.SavingUnknown? { FiledMoves(rule, w, s2, p, job, stage); }
      else { Rests(rule, w, s2, p, proc.(task := Idle)); }
    }
  }

  lemma AnswerOf(rule: Uniqueness, s: Store, calls: seq<BrokerCall>, n: Id, proc: Process)
    requires TaskOk(rule, s, calls, n, proc) && proc.task.Working?
    ensures JobOk(proc, proc.task.job) && AnswerOk(calls, proc.task.job, proc.task.stage)
  {
  }

  lemma FiledMoves(rule: Uniqueness, w: World, s2: Store, p: nat, job: Job, stage: Stage)
    requires WorldInv(rule, w) && p < |w.procs| && w.procs[p].task == Working(job, stage) && (stage.SavingResult? || stage.SavingUnknown?)
    requires Within(w.store, w.calls, s2, w.calls, w.procs[p].task) && RecordsOk(s2, w.calls, w.nextId)
    ensures WorldInv(rule, MoveTo(w.(store := s2), p,
      Working(job, if stage.SavingResult? then NotingResult(stage.result) else NotingUnknown(stage.interrupted))))
  {
    var next := if stage.SavingResult? then NotingResult(stage.result) else NotingUnknown(stage.interrupted);
    AtTask(rule, w, p);
    AnswerOf(rule, w.store, w.calls, w.nextId, w.procs[p]);
    AnswerMoves(rule, w, s2, p, job, stage, next, w.procs[p].(task := Working(job, next)));
  }

  lemma BreakMoves(rule: Uniqueness, w: World, p: nat, applied: bool, proc2: Process)
    requires WorldInv(rule, w) && p < |w.procs|
    requires proc2 == Interrupted(w.procs[p]) || proc2 == Raised(w.procs[p], false) || proc2 == Raised(w.procs[p], true)
    ensures WorldInv(rule, With(Partly(rule, w, p, applied), p, proc2))
  {
    var proc, s2 := w.procs[p], Partly(rule, w, p, applied).store;
    assert TaskOk(rule, w.store, w.calls, w.nextId, proc);
    if applied && Written(rule, w.store, proc.task).Some? {
      TaskWrite(rule, w.store, w.calls, w.nextId, proc);
    } else {
      StandStill(w.store, w.calls, proc.task);
    }
    assert Partly(rule, w, p, applied) == w.(store := s2);
    if proc2.task.Idle? { Rests(rule, w, s2, p, proc2); }
    else { AnswerMoves(rule, w, s2, p, proc.task.job, proc.task.stage, proc2.task.stage, proc2); }
  }

  lemma ProceedMoves(rule: Uniqueness, w: World, p: nat, input: Input)
    requires WorldInv(rule, w) && p < |w.procs|
    ensures WorldInv(rule, Advance(rule, w, p, input))
  {
    var proc := w.procs[p];
    if Written(rule, w.store, proc.task).None? { BreakMoves(rule, w, p, false, Raised(proc, false)); }
    else if proc.task.Working? { JobMoves(rule, w, p, proc.task.job, proc.task.stage, input); }
    else { AskMoves(rule, w, p, input); }
  }

  // ---- what takes no lock -------------------------------------------------------------------

  /** Steps outside the execution lock write only what was sent. */
  lemma BesideKeeps(rule: Uniqueness, w: World, v: World)
    requires WorldInv(rule, w) && v == w.(store := v.store, sides := v.sides)
    requires Within(w.store, w.calls, v.store, v.calls, Idle) && RecordsOk(v.store, v.calls, v.nextId)
    requires forall k :: 0 <= k < |v.sides| ==> SideOk(v.calls, v.sides[k])
    ensures WorldInv(rule, v)
  {
    forall q | 0 <= q < |v.procs| ensures TaskOk(rule, v.store, v.calls, v.nextId, v.procs[q]) {
      assert Apart(rule, w.procs[q].task, Idle);
      TaskKept(rule, w.store, w.calls, w.nextId, v.store, v.calls, v.nextId, Idle, w.procs[q]);
    }
  }

  lemma SideWriteKeeps(s: Store, calls: seq<BrokerCall>, n: Id, t: SideTask)
    requires RecordsOk(s, calls, n) && SideOk(calls, t) && SideWrite(s, t).Some?
    ensures Within(s, calls, SideWrite(s, t).value, calls, Idle) && RecordsOk(SideWrite(s, t).value, calls, n)
  {
    match t
    case SavingMatch(_, found) => OrderWrite(s, calls, n, found, Idle);
    case SavingUpdate(_, o, _) => OrderWrite(s, calls, n, o, Idle);
    case _ => NotesAside(s, calls, n, SideWrite(s, t).value);
  }

  lemma NotesAside(s: Store, calls: seq<BrokerCall>, n: Id, s2: Store)
    requires RecordsOk(s, calls, n) && s.audit <= s2.audit
    requires s2 == s.(transitions := s2.transitions, negatives := s2.negatives, audit := s2.audit)
    ensures Within(s, calls, s2, calls, Idle) && RecordsOk(s2, calls, n)
  {
  }

  lemma SideStepKeeps(rule: Uniqueness, w: World, k: nat, s2: Store, next: SideTask)
    requires WorldInv(rule, w) && k < |w.sides| && SideOk(w.calls, next)
    requires s2 == w.store || SideWrite(w.store, w.sides[k]) == Some(s2)
    ensures WorldInv(rule, w.(store := s2, sides := w.sides[k := next]))
  {
    if s2 == w.store { StandStill(w.store, w.calls, Idle); }
    else { SideWriteKeeps(w.store, w.calls, w.nextId, w.sides[k]); }
    BesideKeeps(rule, w, w.(store := s2, sides := w.sides[k := next]));
  }

  lemma SideNextOk(s: Store, calls: seq<BrokerCall>, proc: Process, t: SideTask, input: Input)
    requires SideOk(calls, t) && OrdersOk(s.orders, calls)
    ensures SideOk(calls, SideNext(s, proc, t, input))
  {
  }

  predicate Locked(e: Event) {
    e.Turn? || e.Execute? || e.CancelOrder? || e.Proceed? || e.Raise? || e.Interrupt?
  }

  lemma LockedKeeps(rule: Uniqueness, w: World, e: Event)
    requires WorldInv(rule, w) && Locked(e)
    ensures WorldInv(rule, Step(rule, w, e))
  {
    match e
    case Turn(p, gates) => if p < |w.procs| { TurnKeeps(rule, w, p, w.procs[p].(gates := gates)); }
    case Execute(p, _, _) => StartKeeps(rule, w, e, p);
    case CancelOrder(p, _) => StartKeeps(rule, w, e, p);
    case Proceed(p, input) => if p < |w.procs| { ProceedMoves(rule, w, p, input); }
    case Raise(p, applied, unresolved) => if p < |w.procs| { BreakMoves(rule, w, p, applied, Raised(w.procs[p], unresolved)); }
    case Interrupt(p, applied) => if p < |w.procs| { BreakMoves(rule, w, p, applied, Interrupted(w.procs[p])); }
  }

  lemma SideStartKeeps(rule: Uniqueness, w: World, t: SideTask)
    requires WorldInv(rule, w) && SideOk(w.calls, t)
    ensures WorldInv(rule, w.(sides := w.sides + [t]))
  {
    StandStill(w.store, w.calls, Idle);
    BesideKeeps(rule, w, w.(sides := w.sides + [t]));
  }

  lemma BesideStepKeeps(rule: Uniqueness, w: World, e: Event)
    requires WorldInv(rule, w) && (e.Reconcile? || e.Update? || e.SideStop?)
    ensures WorldInv(rule, Step(rule, w, e))
  {
    match e
    case Reconcile(p, intent) => if p < |w.procs| { SideStartKeeps(rule, w, ReadingUnknown(p, intent)); }
    case Update(p, o, evidence) => if p < |w.procs| && Sent(w.calls, o.intent) { SideStartKeeps(rule, w, ReadingLocal(p, o, evidence)); }
    case SideStop(k, applied) =>
      if k < |w.sides| {
        var s := SideWrite(w.store, w.sides[k]);
        SideStepKeeps(rule, w, k, if applied && s.Some? then s.value else w.store, Done);
      }
  }

  lemma StepKeeps(rule: Uniqueness, w: World, e: Event)
    requires WorldInv(rule, w)
    ensures WorldInv(rule, Step(rule, w, e))
  {
    if Locked(e) { LockedKeeps(rule, w, e); }
    else if e.Crash? { if e.p < |w.procs| { CrashKeeps(rule, w, e.p); } }
    else if e.SideProceed? { if e.k < |w.sides| { SideProceedKeeps(rule, w, e.k, e.input); } }
    else { BesideStepKeeps(rule, w, e); }
  }

  lemma TurnKeeps(rule: Uniqueness, w: World, p: nat, proc: Process)
    requires WorldInv(rule, w) && p < |w.procs| && proc == w.procs[p].(gates := proc.gates)
    ensures WorldInv(rule, With(w, p, proc))
  {
    StandStill(w.store, w.calls, w.procs[p].task);
    GatesAside(rule, w.store, w.calls, w.nextId, w.procs[p], proc);
    Settles(rule, w, w.store, p, proc);
  }

  lemma StartKeeps(rule: Uniqueness, w: World, e: Event, p: nat)
    requires WorldInv(rule, w) && ((e.Execute? && e.p == p) || (e.CancelOrder? && e.p == p))
    ensures WorldInv(rule, Step(rule, w, e))
  {
    if p < |w.procs| && w.procs[p].task.Idle? {
      StandStill(w.store, w.calls, w.procs[p].task);
      var v := Step(rule, w, e);
      Started(rule, w, e, p);
      if v.procs[p].task.Idle? { Rests(rule, w, w.store, p, v.procs[p]); }
      else {
        StartedTask(rule, w.store, w.calls, w.nextId, v.procs[p]);
        Settles(rule, w, w.store, p, v.procs[p]);
      }
    }
  }

  lemma Started(rule: Uniqueness, w: World, e: Event, p: nat)
    requires p < |w.procs| && w.procs[p].task.Idle? && ((e.Execute? && e.p == p) || (e.CancelOrder? && e.p == p))
    ensures var v := Step(rule, w, e); p < |v.procs| && v == With(w, p, v.procs[p])
    ensures var proc := Step(rule, w, e).procs[p];
      proc.task.Idle? || proc.task.Finding? || (proc.task.CancelStart? && proc.latch == {})
  {
    assert w.procs == w.procs[p := w.procs[p]];
  }

  lemma StartedTask(rule: Uniqueness, s: Store, calls: seq<BrokerCall>, n: Id, proc: Process)
    requires proc.task.Finding? || (proc.task.CancelStart? && proc.latch == {})
    ensures TaskOk(rule, s, calls, n, proc)
  {
  }

  lemma CrashKeeps(rule: Uniqueness, w: World, p: nat)
    requires WorldInv(rule, w) && p < |w.procs|
    ensures WorldInv(rule, Step(rule, w, Crash(p)))
  {
    var proc := w.procs[p].(task := Idle, latch := {});
    StandStill(w.store, w.calls, w.procs[p].task);
    Rests(rule, w, w.store, p, proc);
    var v := With(w, p, proc);
    StandStill(v.store, v.calls, Idle);
    BesideKeeps(rule, v, Step(rule, w, Crash(p)));
  }

  lemma SideProceedKeeps(rule: Uniqueness, w: World, k: nat, input: Input)
    requires WorldInv(rule, w) && k < |w.sides|
    ensures WorldInv(rule, AdvanceSide(w, k, input))
  {
    var t := w.sides[k];
    if !t.Done? && t.p < |w.procs| {
      match SideWrite(w.store, t)
      case None => SideStepKeeps(rule, w, k, w.store, Done);
      case Some(s) =>
        SideWriteKeeps(w.store, w.calls, w.nextId, t);
        SideNextOk(s, w.calls, w.procs[t.p], t, input);
        SideStepKeeps(rule, w, k, s, SideNext(s, w.procs[t.p], t, input));
    }
  }

  // ---- over all runs ------------------------------------------------------------------------

  lemma {:induction false} RunsKeep(rule: Uniqueness, w: World, events: seq<Event>)
    requires Initial(w)
    ensures WorldInv(rule, RunOf(rule, w, events))
    decreases |events|
  {
    if events != [] {
      RunsKeep(rule, w, events[..|events| - 1]);
      StepKeeps(rule, RunOf(rule, w, events[..|events| - 1]), events[|events| - 1]);
    }
  }

  /** However many processes compete, crash, are cancelled, lose their broker's answer or are told
      that a retry is permitted, and whichever of the two stores they share: nothing is placed twice
      and nothing is cancelled twice. */
  lemma {:induction false} AtMostOneWrite(rule: Uniqueness, w: World, events: seq<Event>, j: nat, k: nat)
    requires Initial(w) && j < k < |RunOf(rule, w, events).calls|
    ensures var calls := RunOf(rule, w, events).calls;
      calls[j].command.id.intent.fingerprint != calls[k].command.id.intent.fingerprint
  {
    RunsKeep(rule, w, events);
  }

  /** What stands behind a placement at its instant. */
  ghost predicate Ready(w: World, p: nat, job: Job)
    requires p < |w.procs| && job.PlaceJob?
  {
    var proc, s, i := w.procs[p], w.store, job.intent.id;
    && i == IntentId(proc.environment, proc.namespace, PlaceOptionOrder, PrintOf(job.ask.proposal))
    && AcceptedReview(s, job.intent.reviewId)
    && i in s.intents && s.intents[i] == job.intent
    && Get(s.commands, CommandOf(job).id) == Some(CommandOf(job))
    && i in s.orders && s.orders[i] == PendingOf(job) && s.orders[i].state.Submitting?
    && InOrder(FullTrail(job), s.audit)
    && Preflight(proc, job.ask.proposal, proc.gates.mode) && ApprovalOk(proc, job.ask) && RiskOk(proc, job.ask, job.judged)
  }

  /** The broker is called only by a task at its gate, and a placement only with its review,
      decision, intent, exact command and SUBMITTING order durable in this order, and with mode,
      kill switch, health, safety state, approval and risk in order at that very instant. */
  lemma {:induction false} PlacementsAreReady(rule: Uniqueness, w0: World, events: seq<Event>, e: Event)
    requires Initial(w0)
    requires var w := RunOf(rule, w0, events); Step(rule, w, e).calls != w.calls
    ensures var w := RunOf(rule, w0, events); var v := Step(rule, w, e);
      && e.Proceed? && e.p < |v.procs| == |w.procs|
      && v.procs[e.p].task.Working? && v.procs[e.p].task.stage.Calling?
      && v.calls == w.calls + [BrokerCall(e.p, CommandOf(v.procs[e.p].task.job))]
      && (v.procs[e.p].task.job.PlaceJob? ==> Ready(v, e.p, v.procs[e.p].task.job))
      && (v.procs[e.p].task.job.CancelJob? ==> CancelGate(v.procs[e.p]) && v.procs[e.p].latch == {})
  {
    var w := RunOf(rule, w0, events);
    RunsKeep(rule, w0, events);
    OnlyGatesCall(rule, w, e);
    var proc := w.procs[e.p];
    var job := proc.task.job;
    assert proc.task == Working(job, NotingPending);
    assert TaskOk(rule, w.store, w.calls, w.nextId, proc);
    CallResult(rule, w, e.p, e.input);
    if job.PlaceJob? { ReadyAtGate(rule, w, e.p, job); }
  }

  lemma CallResult(rule: Uniqueness, w: World, p: nat, input: Input)
    requires p < |w.procs| && w.procs[p].task.Working? && w.procs[p].task.stage.NotingPending? && GateOpen(w.procs[p], w.procs[p].task.job)
    ensures var job := w.procs[p].task.job;
      Advance(rule, w, p, input) == MoveTo(w.(store := WriteOf(rule, w.store, job, NotingPending).value), p, Working(job, Calling))
                                      .(calls := w.calls + [BrokerCall(p, CommandOf(job))])
  {
  }

  lemma ReadyAtGate(rule: Uniqueness, w: World, p: nat, job: Job)
    requires p < |w.procs| && job.PlaceJob? && w.procs[p].task == Working(job, NotingPending) && GateOpen(w.procs[p], job)
    requires TaskOk(rule, w.store, w.calls, w.nextId, w.procs[p])
    ensures Ready(MoveTo(w.(store := WriteOf(rule, w.store, job, NotingPending).value), p, Working(job, Calling))
      .(calls := w.calls + [BrokerCall(p, CommandOf(job))]), p, job)
  {
    var s2 := WriteOf(rule, w.store, job, NotingPending).value;
    assert TrailOf(w.procs[p].task) == FullTrail(job);
    InOrderGrows(FullTrail(job), w.store.audit, s2.audit);
  }

  lemma OnlyGatesCall(rule: Uniqueness, w: World, e: Event)
    requires Step(rule, w, e).calls != w.calls
    ensures e.Proceed? && e.p < |w.procs| && w.procs[e.p].task.Working? && w.procs[e.p].task.stage.NotingPending?
    ensures GateOpen(w.procs[e.p], w.procs[e.p].task.job)
  {
    if e.Proceed? && e.p < |w.procs| && Written(rule, w.store, w.procs[e.p].task).Some? && !w.procs[e.p].task.Working? {
      AskShape(w.(store := Written(rule, w.store, w.procs[e.p].task).value), e.p, e.input);
    }
  }

  /** Every broker write leaves a durable order record behind it, whatever happens afterwards. */
  lemma {:induction false} WritesStayOnRecord(rule: Uniqueness, w: World, events: seq<Event>, k: nat)
    requires Initial(w) && k < |RunOf(rule, w, events).calls|
    ensures var v := RunOf(rule, w, events); v.calls[k].command.id.intent in v.store.intents && v.calls[k].command.id.intent in v.store.orders
  {
    RunsKeep(rule, w, events);
  }
}
