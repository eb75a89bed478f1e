/** The execution protocol over its ledger: one service, any interleaving of its awaits with the
    ledger's other calls. Its steps are those of `Admission`, so the configured limits hold. */
module ProtocolLimits {
  import opened Dicts
  import opened Domain
  import opened LedgerState
  import opened LedgerRuns
  import opened RiskEngine
  import A = Admission
  import I = LedgerInvariant
  import P = ExecutionProtocol
  import S = ExecutionStore
  import X = ExecutionSafety

  /** `pending`: the placement on its way has not reached the ledger. */
  datatype Joint = Joint(world: P.World, ledger: Ledger, pending: bool)

  datatype Act =
    | Serve(event: P.Event)   // a step of the service
    | Book(op: Op)            // a quote, expiry, cancel, deposit or review at the ledger
    | Arrive                  // the placement reaches the ledger

  datatype Moment = Moment(act: Act, now: Instant)

  /** The digest that makes an id of an intent. */
  type Digest = S.IntentId -> Id

  /** The command of a placement as the ledger sees it. */
  function CommandFor(digest: Digest, job: P.Job): Command
    requires job.PlaceJob?
  {
    var i, p := job.intent.id, job.ask.proposal;
    Command(job.schema, digest(i), i.environment, i.namespace, PlaceOptionOrder, p.contract.instrument, p.side, p.quantity, p.limit,
            true, p.proposalId, digest(i))
  }

  predicate Sending(t: P.Task) {
    t.Working? && t.job.PlaceJob? && t.stage.Calling?
  }

  function TaskOf(j: Joint): P.Task {
    if |j.world.procs| == 0 then P.Idle else j.world.procs[0].task
  }

  ghost function Next(cfg: Config, rule: S.Uniqueness, digest: Digest, j: Joint, m: Moment): Joint {
    match m.act
    case Serve(e) =>
      var w := P.Step(rule, j.world, e);
      Joint(w, j.ledger, if |w.calls| > |j.world.calls| then true else j.pending)
    case Book(op) => if op.OpSubmit? then j else j.(ledger := Apply(cfg, j.ledger, Call(op, m.now)).0)
    case Arrive =>
      if Sending(TaskOf(j)) && j.pending then
        var job := TaskOf(j).job;
        j.(ledger := Submit(cfg, j.ledger, CommandFor(digest, job), job.ask.proposal.contract, m.now).ledger, pending := false)
      else j
  }

  // ---- the phase of the admission a task is in ----------------------------------------------

  predicate Holds(t: P.Task) {
    || (t.SavingRedecision? && t.allowed)
    || (t.Working? && t.job.PlaceJob? &&
        (t.stage.Equipping? || t.stage.SavingIntent? || t.stage.SavingCommand? || t.stage.SavingPending? || t.stage.NotingPending?))
  }

  function Judgement(t: P.Task, at: Instant): A.Judgement
    requires Holds(t) || Sending(t)
  {
    if t.SavingRedecision? then A.Judgement(t.ask.proposal, at, t.judged.account, t.judged.quote)
    else A.Judgement(t.job.ask.proposal, at, t.job.judged.account, t.job.judged.quote)
  }

  function PhaseOf(digest: Digest, t: P.Task, pending: bool, at: Instant): A.Phase {
    if Holds(t) then A.Judged(Judgement(t, at))
    else if Sending(t) && pending then A.Sent(Judgement(t, at), CommandFor(digest, t.job))
    else A.Free
  }

  function Asks(t: P.Task): Option<P.Ask> {
    match t
    case Finding(ask) => Some(ask)
    case Surveying(ask) => Some(ask)
    case SavingSurvey(ask, _) => Some(ask)
    case Judging(ask) => Some(ask)
    case SavingDecision(ask, _, _) => Some(ask)
    case Reviewing(ask) => Some(ask)
    case SavingAnswer(ask, _) => Some(ask)
    case Rejudging(ask, _) => Some(ask)
    case SavingRedecision(ask, _, _, _) => Some(ask)
    case Working(job, _) => if job.PlaceJob? then Some(job.ask) else None
    case _ => None
  }

  /** The request is for the service's own environment and for a listed contract. */
  ghost predicate Fits(listing: I.Listing, proc: P.Process) {
    var a := Asks(proc.task);
    a.Some? ==>
      var p := a.value.proposal;
      I.Listed(listing, p.contract) && p.environment == proc.environment && p.namespace == proc.namespace
  }

  // ---- what one step of the service does to the phase ---------------------------------------

  predicate Judges(w: P.World, e: P.Event) {
    |w.procs| == 1 && e.Proceed? && e.p == 0 && e.input.Market? && w.procs[0].task.Rejudging?
  }

  /** A task's claim comes from the same claim before, from a judgement, or from the open gate. */
  ghost predicate Follows(w: P.World, v: P.World, e: P.Event)
    requires |w.procs| == 1 == |v.procs|
  {
    var proc, t, u := w.procs[0], w.procs[0].task, v.procs[0].task;
    && v.procs[0].risk == proc.risk && v.procs[0].environment == proc.environment && v.procs[0].namespace == proc.namespace
    && (|v.calls| > |w.calls| ==> !Sending(t))
    && (Holds(u) ==>
          || (Holds(t) && (forall at :: Judgement(u, at) == Judgement(t, at)))
          || (Judges(w, e)
              && (forall at :: Judgement(u, at) == A.Judgement(t.ask.proposal, at, e.input.account, e.input.quote))
              && EvaluateRisk(proc.risk, t.ask.proposal, e.input.account, e.input.quote, proc.gates.now).allowed))
    && (Sending(u) ==>
          || (u == t && |v.calls| == |w.calls|)
          || (e.Proceed? && e.p == 0 && t == P.Working(u.job, P.NotingPending) && P.GateOpen(proc, u.job) && |v.calls| > |w.calls|))
  }

  lemma AskFollows(w: P.World, u: P.World, v: P.World, e: P.Event)
    requires |w.procs| == 1 && !w.procs[0].task.Working? && e.Proceed? && e.p == 0
    requires u == w.(store := u.store) && v == P.ContinueAsk(u, 0, e.input)
    ensures |v.procs| == 1 && Follows(w, v, e)
  {
    X.AskShape(u, 0, e.input);
    if w.procs[0].task.Rejudging? { RejudgeFollows(w, u, v, e); }
    else if w.procs[0].task.SavingRedecision? { RedecideFollows(w, u, v, e); }
    else { PlainFollows(w, u, v, e); }
  }

  lemma RejudgeFollows(w: P.World, u: P.World, v: P.World, e: P.Event)
    requires |w.procs| == 1 && w.procs[0].task.Rejudging? && e.Proceed? && e.p == 0
    requires u == w.(store := u.store) && v == P.ContinueAsk(u, 0, e.input)
    ensures |v.procs| == 1 && Follows(w, v, e)
  {
  }

  lemma RedecideFollows(w: P.World, u: P.World, v: P.World, e: P.Event)
    requires |w.procs| == 1 && w.procs[0].task.SavingRedecision? && e.Proceed? && e.p == 0
    requires u == w.(store := u.store) && v == P.ContinueAsk(u, 0, e.input)
    ensures |v.procs| == 1 && Follows(w, v, e)
  {
  }

  lemma PlainFollows(w: P.World, u: P.World, v: P.World, e: P.Event)
    requires |w.procs| == 1 && e.Proceed? && e.p == 0
    requires var t := w.procs[0].task; !t.Working? && !t.Rejudging? && !t.SavingRedecision?
    requires u == w.(store := u.store) && v == P.ContinueAsk(u, 0, e.input)
    ensures |v.procs| == 1 && Follows(w, v, e)
  {
    var t := v.procs[0].task;
    assert !Holds(t) && !Sending(t);
  }

  lemma JobFollows(w: P.World, u: P.World, v: P.World, e: P.Event, job: P.Job, stage: P.Stage)
    requires |w.procs| == 1 && w.procs[0].task == P.Working(job, stage) && e.Proceed? && e.p == 0
    requires u == w.(store := u.store) && v == P.ContinueJob(u, 0, job, stage, e.input)
    ensures |v.procs| == 1 && Follows(w, v, e)
  {
  }

  /** Without a completed await a task stays, starts or gives up. */
  lemma OtherFollows(rule: S.Uniqueness, w: P.World, e: P.Event)
    requires |w.procs| == 1 && !(e.Proceed? && e.p == 0)
    ensures var v := P.Step(rule, w, e); |v.procs| == 1 && Follows(w, v, e)
  {
  }

  lemma StepFollows(rule: S.Uniqueness, w: P.World, e: P.Event)
    requires |w.procs| == 1
    ensures var v := P.Step(rule, w, e); |v.procs| == 1 && Follows(w, v, e)
  {
    if e.Proceed? && e.p == 0 {
      var t := w.procs[0].task;
      match P.Written(rule, w.store, t)
      case None => OtherEnd(w, e, P.Raised(w.procs[0], false));
      case Some(s) =>
        var u := w.(store := s);
        if t.Working? { JobFollows(w, u, P.Step(rule, w, e), e, t.job, t.stage); }
        else { AskFollows(w, u, P.Step(rule, w, e), e); }
    } else {
      OtherFollows(rule, w, e);
    }
  }

  lemma OtherEnd(w: P.World, e: P.Event, proc: P.Process)
    requires |w.procs| == 1 && proc == P.Raised(w.procs[0], false)
    ensures Follows(w, P.With(w, 0, proc), e)
  {
  }

  // ---- the request a task serves ------------------------------------------------------------

  ghost predicate AskFollowsFrom(w: P.World, v: P.World, e: P.Event)
    requires |w.procs| == 1 == |v.procs|
  {
    var a, b := Asks(w.procs[0].task), Asks(v.procs[0].task);
    || b.None? || b == a
    || (e.Execute? && b.value.proposal == e.proposal
        && e.proposal.environment == w.procs[0].environment && e.proposal.namespace == w.procs[0].namespace)
  }

  lemma AskServes(w: P.World, u: P.World, input: P.Input)
    requires |w.procs| == 1 && !w.procs[0].task.Working? && u == w.(store := u.store)
    ensures var v := P.ContinueAsk(u, 0, input);
      |v.procs| == 1 && (Asks(v.procs[0].task).None? || Asks(v.procs[0].task) == Asks(w.procs[0].task))
  {
    X.AskShape(u, 0, input);
    if X.Early(w.procs[0].task) { EarlyServes(u, input); }
  }

  lemma EarlyServes(u: P.World, input: P.Input)
    requires |u.procs| == 1 && X.Early(u.procs[0].task)
    ensures var v := P.ContinueAsk(u, 0, input);
      |v.procs| == 1 && (Asks(v.procs[0].task).None? || Asks(v.procs[0].task) == Asks(u.procs[0].task))
  {
  }

  lemma JobServes(w: P.World, u: P.World, job: P.Job, stage: P.Stage, input: P.Input)
    requires |w.procs| == 1 && w.procs[0].task == P.Working(job, stage) && u == w.(store := u.store)
    ensures var v := P.ContinueJob(u, 0, job, stage, input);
      |v.procs| == 1 && (Asks(v.procs[0].task).None? || Asks(v.procs[0].task) == Asks(w.procs[0].task))
  {
  }

  lemma StepServes(rule: S.Uniqueness, w: P.World, e: P.Event)
    requires |w.procs| == 1
    ensures var v := P.Step(rule, w, e); |v.procs| == 1 && AskFollowsFrom(w, v, e)
  {
    var t := w.procs[0].task;
    if e.Proceed? && e.p == 0 && P.Written(rule, w.store, t).Some? {
      var u := w.(store := P.Written(rule, w.store, t).value);
      if t.Working? { JobServes(w, u, t.job, t.stage, e.input); } else { AskServes(w, u, e.input); }
    }
  }

  // ---- the joint invariant ------------------------------------------------------------------

  /** The system of `Admission` that the joint state stands for. */
  function SystemOf(digest: Digest, j: Joint, at: Instant): A.System {
    A.System(j.ledger, PhaseOf(digest, TaskOf(j), j.pending, at))
  }

  ghost predicate JointInv(cfg: Config, listing: I.Listing, rule: S.Uniqueness, rc: RiskConfig, digest: Digest, j: Joint, at: Instant, now: Instant) {
    && |j.world.procs| == 1 && j.world.procs[0].risk == rc && X.WorldInv(rule, j.world) && Fits(listing, j.world.procs[0])
    && A.SystemInv(cfg, listing, rc, SystemOf(digest, j, at), now)
  }

  /** Requests are for listed contracts, a judgement reads the ledger's own account, and the
      service's clock is the ledger's. */
  ghost predicate Faithful(cfg: Config, listing: I.Listing, j: Joint, m: Moment) {
    match m.act
    case Serve(e) =>
      && (e.Execute? ==> I.Listed(listing, e.proposal.contract))
      && (Judges(j.world, e) ==> e.input.account == AccountSnapshot(cfg, j.ledger, m.now))
      && (e.Proceed? && |j.world.procs| > 0 ==> j.world.procs[0].gates.now == m.now.t)
    case Book(op) => OpListed(listing, op)
    case Arrive => true
  }

  lemma Released(cfg: Config, listing: I.Listing, rc: RiskConfig, x: A.System, now: Instant)
    requires A.SystemInv(cfg, listing, rc, x, now)
    ensures A.SystemInv(cfg, listing, rc, x.(phase := A.Free), now)
  {
    A.StepHolds(cfg, listing, rc, x, A.Moment(A.Release, now));
  }

  /** The judgement of the protocol is the judgement of the admission. */
  lemma JudgementHolds(cfg: Config, listing: I.Listing, rc: RiskConfig, x: A.System, p: Proposal, account: Account, q: Quote, now: Instant)
    requires A.SystemInv(cfg, listing, rc, x, now) && x.phase.Free? && I.Listed(listing, p.contract)
    requires account == AccountSnapshot(cfg, x.ledger, now) && EvaluateRisk(rc, p, account, q, now.t).allowed
    ensures A.SystemInv(cfg, listing, rc, x.(phase := A.Judged(A.Judgement(p, now, account, q))), now)
  {
    A.StepHolds(cfg, listing, rc, x, A.Moment(A.Judge(p, q), now));
  }

  /** The open gate of the protocol is the gate of the admission. */
  lemma GateHolds(cfg: Config, listing: I.Listing, rc: RiskConfig, digest: Digest, x: A.System, proc: P.Process, job: P.Job, at: Instant, now: Instant)
    requires A.SystemInv(cfg, listing, rc, x, now) && job.PlaceJob? && proc.task == P.Working(job, P.NotingPending)
    requires x.phase == A.Judged(Judgement(proc.task, at)) && proc.risk == rc && proc.gates.now == now.t
    requires P.GateOpen(proc, job) && X.JobOk(proc, job) && Fits(listing, proc)
    ensures A.SystemInv(cfg, listing, rc, x.(phase := A.Sent(Judgement(proc.task, at), CommandFor(digest, job))), now)
  {
    A.StepHolds(cfg, listing, rc, x, A.Moment(A.Gate(CommandFor(digest, job)), now));
  }

  lemma ServeFits(cfg: Config, listing: I.Listing, rule: S.Uniqueness, j: Joint, e: P.Event, now: Instant)
    requires |j.world.procs| == 1 && Fits(listing, j.world.procs[0]) && Faithful(cfg, listing, j, Moment(Serve(e), now))
    ensures var v := P.Step(rule, j.world, e); |v.procs| == 1 && Fits(listing, v.procs[0])
  {
    StepServes(rule, j.world, e);
    StepFollows(rule, j.world, e);
  }

  /** A step of the service, phase by phase. */
  lemma PhaseKeeps(cfg: Config, listing: I.Listing, rule: S.Uniqueness, rc: RiskConfig, digest: Digest, j: Joint, v: P.World, e: P.Event,
                   at: Instant, now: Instant) returns (later: Instant)
    requires JointInv(cfg, listing, rule, rc, digest, j, at, now) && Faithful(cfg, listing, j, Moment(Serve(e), now))
    requires |v.procs| == 1 && Follows(j.world, v, e)
    ensures var pending := if |v.calls| > |j.world.calls| then true else j.pending;
      A.SystemInv(cfg, listing, rc, A.System(j.ledger, PhaseOf(digest, v.procs[0].task, pending, later)), now)
  {
    var t, u, x := j.world.procs[0].task, v.procs[0].task, SystemOf(digest, j, at);
    later := at;
    if Holds(u) {
      if !Holds(t) || Judgement(u, at) != Judgement(t, at) {
        later := now;
        JudgementHolds(cfg, listing, rc, x, t.ask.proposal, e.input.account, e.input.quote, now);
      }
    } else if Sending(u) {
      if u != t { GateOpens(cfg, listing, rule, rc, digest, j, u.job, at, now); }
    } else {
      Released(cfg, listing, rc, x, now);
    }
  }

  lemma ServePhase(cfg: Config, listing: I.Listing, rule: S.Uniqueness, rc: RiskConfig, digest: Digest, j: Joint, e: P.Event, at: Instant, now: Instant)
    returns (later: Instant)
    requires JointInv(cfg, listing, rule, rc, digest, j, at, now) && Faithful(cfg, listing, j, Moment(Serve(e), now))
    ensures A.SystemInv(cfg, listing, rc, SystemOf(digest, Next(cfg, rule, digest, j, Moment(Serve(e), now)), later), now)
  {
    StepFollows(rule, j.world, e);
    later := PhaseKeeps(cfg, listing, rule, rc, digest, j, P.Step(rule, j.world, e), e, at, now);
  }

  lemma GateOpens(cfg: Config, listing: I.Listing, rule: S.Uniqueness, rc: RiskConfig, digest: Digest, j: Joint, job: P.Job, at: Instant, now: Instant)
    requires JointInv(cfg, listing, rule, rc, digest, j, at, now) && job.PlaceJob?
    requires var proc := j.world.procs[0];
      proc.task == P.Working(job, P.NotingPending) && P.GateOpen(proc, job) && proc.gates.now == now.t
    ensures A.SystemInv(cfg, listing, rc, A.System(j.ledger, A.Sent(Judgement(TaskOf(j), at), CommandFor(digest, job))), now)
  {
    X.AtTask(rule, j.world, 0);
    X.AnswerOf(rule, j.world.store, j.world.calls, j.world.nextId, j.world.procs[0]);
    GateHolds(cfg, listing, rc, digest, SystemOf(digest, j, at), j.world.procs[0], job, at, now);
  }

  lemma ServeStep(cfg: Config, listing: I.Listing, rule: S.Uniqueness, rc: RiskConfig, digest: Digest, j: Joint, e: P.Event, at: Instant, now: Instant)
    returns (later: Instant)
    requires JointInv(cfg, listing, rule, rc, digest, j, at, now) && Faithful(cfg, listing, j, Moment(Serve(e), now))
    ensures JointInv(cfg, listing, rule, rc, digest, Next(cfg, rule, digest, j, Moment(Serve(e), now)), later, now)
  {
    later := ServePhase(cfg, listing, rule, rc, digest, j, e, at, now);
    ServeRest(cfg, listing, rule, rc, j, e, now);
  }

  lemma ServeRest(cfg: Config, listing: I.Listing, rule: S.Uniqueness, rc: RiskConfig, j: Joint, e: P.Event, now: Instant)
    requires |j.world.procs| == 1 && j.world.procs[0].risk == rc && X.WorldInv(rule, j.world) && Fits(listing, j.world.procs[0])
    requires Faithful(cfg, listing, j, Moment(Serve(e), now))
    ensures var v := P.Step(rule, j.world, e);
      |v.procs| == 1 && v.procs[0].risk == rc && X.WorldInv(rule, v) && Fits(listing, v.procs[0])
  {
    X.StepKeeps(rule, j.world, e);
    ServeFits(cfg, listing, rule, j, e, now);
    StepFollows(rule, j.world, e);
  }

  lemma BookIsOther(cfg: Config, rule: S.Uniqueness, rc: RiskConfig, digest: Digest, j: Joint, op: Op, at: Instant, now: Instant)
    ensures SystemOf(digest, Next(cfg, rule, digest, j, Moment(Book(op), now)), at) ==
            A.Step(cfg, rc, SystemOf(digest, j, at), A.Moment(A.Other(op), now))
  {
  }

  lemma ArriveIsDeliver(cfg: Config, rule: S.Uniqueness, rc: RiskConfig, digest: Digest, j: Joint, at: Instant, now: Instant)
    requires Sending(TaskOf(j)) && j.pending
    ensures SystemOf(digest, Next(cfg, rule, digest, j, Moment(Arrive, now)), at) ==
            A.Step(cfg, rc, SystemOf(digest, j, at), A.Moment(A.Deliver, now))
  {
  }

  lemma LedgerStep(cfg: Config, listing: I.Listing, rule: S.Uniqueness, rc: RiskConfig, digest: Digest, j: Joint, m: Moment, at: Instant)
    requires A.SystemInv(cfg, listing, rc, SystemOf(digest, j, at), m.now) && Faithful(cfg, listing, j, m) && !m.act.Serve?
    ensures A.SystemInv(cfg, listing, rc, SystemOf(digest, Next(cfg, rule, digest, j, m), at), m.now)
    ensures Next(cfg, rule, digest, j, m).world == j.world
  {
    match m.act
    case Book(op) =>
      BookIsOther(cfg, rule, rc, digest, j, op, at, m.now);
      A.StepHolds(cfg, listing, rc, SystemOf(digest, j, at), A.Moment(A.Other(op), m.now));
    case Arrive =>
      if Sending(TaskOf(j)) && j.pending {
        ArriveIsDeliver(cfg, rule, rc, digest, j, at, m.now);
        A.StepHolds(cfg, listing, rc, SystemOf(digest, j, at), A.Moment(A.Deliver, m.now));
      }
  }

  lemma JointStep(cfg: Config, listing: I.Listing, rule: S.Uniqueness, rc: RiskConfig, digest: Digest, j: Joint, m: Moment, at: Instant)
    returns (later: Instant)
    requires JointInv(cfg, listing, rule, rc, digest, j, at, m.now) && Faithful(cfg, listing, j, m)
    ensures JointInv(cfg, listing, rule, rc, digest, Next(cfg, rule, digest, j, m), later, m.now)
  {
    later := at;
    if m.act.Serve? { later := ServeStep(cfg, listing, rule, rc, digest, j, m.act.event, at, m.now); }
    else { LedgerStep(cfg, listing, rule, rc, digest, j, m, at); }
  }

  // ---- runs ---------------------------------------------------------------------------------

  ghost function RunJoint(cfg: Config, rule: S.Uniqueness, digest: Digest, j: Joint, moments: seq<Moment>): Joint {
    if moments == [] then j
    else Next(cfg, rule, digest, RunJoint(cfg, rule, digest, j, moments[..|moments| - 1]), moments[|moments| - 1])
  }

  ghost predicate RunOk(cfg: Config, listing: I.Listing, rule: S.Uniqueness, digest: Digest, j: Joint, start: Instant, moments: seq<Moment>) {
    moments == [] ||
    (var before, last := moments[..|moments| - 1], moments[|moments| - 1];
     && RunOk(cfg, listing, rule, digest, j, start, before)
     && Faithful(cfg, listing, RunJoint(cfg, rule, digest, j, before), last) && NotBefore(last.now, LastOf(start, before)))
  }

  function LastOf(start: Instant, moments: seq<Moment>): Instant {
    if moments == [] then start else moments[|moments| - 1].now
  }

  lemma JointLater(cfg: Config, listing: I.Listing, rule: S.Uniqueness, rc: RiskConfig, digest: Digest, j: Joint, at: Instant, now: Instant, later: Instant)
    requires JointInv(cfg, listing, rule, rc, digest, j, at, now) && NotBefore(later, now)
    ensures JointInv(cfg, listing, rule, rc, digest, j, at, later)
  {
    A.SystemLater(cfg, listing, rc, SystemOf(digest, j, at), now, later);
  }

  lemma {:induction false} RunsHold(cfg: Config, listing: I.Listing, rule: S.Uniqueness, rc: RiskConfig, digest: Digest, w: P.World,
                                    start: Instant, moments: seq<Moment>) returns (at: Instant)
    requires P.Initial(w) && |w.procs| == 1 && w.procs[0].risk == rc
    requires RunOk(cfg, listing, rule, digest, Joint(w, Fresh(cfg), false), start, moments)
    ensures JointInv(cfg, listing, rule, rc, digest, RunJoint(cfg, rule, digest, Joint(w, Fresh(cfg), false), moments), at, LastOf(start, moments))
    decreases |moments|
  {
    if moments == [] {
      at := start;
      X.RunsKeep(rule, w, []);
      A.LimitsAlwaysHold(cfg, listing, rc, start, []);
    } else {
      var n := |moments| - 1;
      at := RunsHold(cfg, listing, rule, rc, digest, w, start, moments[..n]);
      var j := RunJoint(cfg, rule, digest, Joint(w, Fresh(cfg), false), moments[..n]);
      JointLater(cfg, listing, rule, rc, digest, j, at, LastOf(start, moments[..n]), moments[n].now);
      at := JointStep(cfg, listing, rule, rc, digest, j, moments[n], at);
    }
  }

  /** However the awaits of the service fall among the ledger's quotes, expiries, cancels and
      deposits, and wherever requests are denied, cancelled or lost: the ledger's open option risk,
      its open instruments and its daily accepted buys never exceed the configured maxima. */
  lemma {:induction false} ServiceKeepsLimits(cfg: Config, listing: I.Listing, rule: S.Uniqueness, rc: RiskConfig, digest: Digest, w: P.World,
                                              start: Instant, moments: seq<Moment>)
    requires P.Initial(w) && |w.procs| == 1 && w.procs[0].risk == rc
    requires RunOk(cfg, listing, rule, digest, Joint(w, Fresh(cfg), false), start, moments)
    ensures A.LimitsHold(rc, RunJoint(cfg, rule, digest, Joint(w, Fresh(cfg), false), moments).ledger)
  {
    var at := RunsHold(cfg, listing, rule, rc, digest, w, start, moments);
  }
}
