/** Interruptions and unresolved submissions. */
module ExecutionResolution {
  import opened Dicts
  import opened Domain
  import opened OrderStates
  import opened ExecutionStore
  import opened ExecutionProtocol
  import opened ExecutionSafety

  // ---- the latch ----------------------------------------------------------------------------

  /** A cancellation while the broker's answer is out, or before it is on record, latches the
      process and halts it. */
  lemma InterruptionLatches(rule: Uniqueness, w: World, p: nat, applied: bool)
    requires p < |w.procs| && w.procs[p].task.Working?
    requires var s := w.procs[p].task.stage; s.Calling? || s.SavingResult? || s.NotingResult?
    ensures var proc := Step(rule, w, Interrupt(p, applied)).procs[p];
      w.procs[p].task.job.intent.id in proc.latch && proc.gates.safety.Halted?
  {
  }

  lemma EarlyLatch(w: World, p: nat, input: Input)
    requires p < |w.procs| && Early(w.procs[p].task)
    ensures ContinueAsk(w, p, input).procs[p].latch == w.procs[p].latch
  {
  }

  lemma LateLatch(w: World, p: nat, input: Input)
    requires p < |w.procs| && !Early(w.procs[p].task)
    ensures ContinueAsk(w, p, input).procs[p].latch == w.procs[p].latch
  {
  }

  lemma AskLatch(w: World, p: nat, input: Input, q: nat)
    requires p < |w.procs| && q < |w.procs|
    ensures var v := ContinueAsk(w, p, input); |v.procs| == |w.procs| && v.procs[q].latch == w.procs[q].latch
  {
    AskShape(w, p, input);
    if Early(w.procs[p].task) { EarlyLatch(w, p, input); } else { LateLatch(w, p, input); }
  }

  lemma JobLatch(w: World, p: nat, job: Job, stage: Stage, input: Input, q: nat)
    requires p < |w.procs| && q < |w.procs|
    ensures var v := ContinueJob(w, p, job, stage, input); |v.procs| == |w.procs| && v.procs[q].latch == w.procs[q].latch
  {
  }

  lemma LatchGrows(rule: Uniqueness, w: World, e: Event, q: nat)
    requires q < |w.procs| && e != Crash(q)
    ensures |Step(rule, w, e).procs| == |w.procs| && w.procs[q].latch <= Step(rule, w, e).procs[q].latch
  {
    if e.Proceed? && e.p < |w.procs| && Written(rule, w.store, w.procs[e.p].task).Some? {
      var u := w.(store := Written(rule, w.store, w.procs[e.p].task).value);
      var t := w.procs[e.p].task;
      if t.Working? { JobLatch(u, e.p, t.job, t.stage, e.input, q); } else { AskLatch(u, e.p, e.input, q); }
    }
  }

  ghost predicate Silent(calls: seq<BrokerCall>, more: seq<BrokerCall>, p: nat) {
    calls <= more && forall k :: |calls| <= k < |more| ==> more[k].p != p
  }

  lemma {:induction false} SilentStep(rule: Uniqueness, w: World, events: seq<Event>, e: Event, p: nat)
    requires Initial(w)
    requires var u := RunOf(rule, w, events); p < |u.procs| && u.procs[p].latch != {} && e != Crash(p)
    ensures var u := RunOf(rule, w, events); var v := Step(rule, u, e);
      |v.procs| == |u.procs| && v.procs[p].latch != {} && Silent(u.calls, v.calls, p)
  {
    var u := RunOf(rule, w, events);
    LatchGrows(rule, u, e, p);
    if Step(rule, u, e).calls != u.calls { PlacementsAreReady(rule, w, events, e); }
  }

  lemma {:induction false} SilentLast(rule: Uniqueness, w: World, events: seq<Event>, p: nat)
    requires Initial(w) && events != []
    requires var u := RunOf(rule, w, events[..|events| - 1]); p < |u.procs| && u.procs[p].latch != {} && events[|events| - 1] != Crash(p)
    ensures var u, v := RunOf(rule, w, events[..|events| - 1]), RunOf(rule, w, events);
      |v.procs| == |u.procs| && v.procs[p].latch != {} && Silent(u.calls, v.calls, p)
  {
    SilentStep(rule, w, events[..|events| - 1], events[|events| - 1], p);
  }

  lemma SilentJoin(a: seq<BrokerCall>, b: seq<BrokerCall>, c: seq<BrokerCall>, p: nat)
    requires Silent(a, b, p) && Silent(b, c, p)
    ensures Silent(a, c, p)
  {
  }

  /** Once latched, a process sends nothing more, placement or cancellation, until it restarts. */
  lemma {:induction false} LatchSilences(rule: Uniqueness, w: World, events: seq<Event>, n: nat, p: nat)
    requires Initial(w) && n <= |events|
    requires var u := RunOf(rule, w, events[..n]); p < |u.procs| && u.procs[p].latch != {}
    requires forall m :: n <= m < |events| ==> events[m] != Crash(p)
    ensures var u := RunOf(rule, w, events[..n]); var v := RunOf(rule, w, events);
      |v.procs| == |u.procs| && v.procs[p].latch != {} && Silent(u.calls, v.calls, p)
    decreases |events|
  {
    if n == |events| {
      assert events[..n] == events;
    } else {
      var before := events[..|events| - 1];
      assert before[..n] == events[..n];
      forall m | n <= m < |before| ensures before[m] != Crash(p) { assert before[m] == events[m]; }
      LatchSilences(rule, w, before, n, p);
      SilentLast(rule, w, events, p);
      SilentJoin(RunOf(rule, w, events[..n]).calls, RunOf(rule, w, before).calls, RunOf(rule, w, events).calls, p);
    }
  }

  /** So after a cancellation while the broker's answer is out, or not yet on record, the process
      sends nothing more until it restarts. */
  lemma {:induction false} InterruptionSilences(rule: Uniqueness, w: World, events: seq<Event>, n: nat, p: nat, applied: bool)
    requires Initial(w) && n < |events| && events[n] == Interrupt(p, applied)
    requires var u := RunOf(rule, w, events[..n]); p < |u.procs| && u.procs[p].task.Working?
    requires var s := RunOf(rule, w, events[..n]).procs[p].task.stage; s.Calling? || s.SavingResult? || s.NotingResult?
    requires forall m :: n < m < |events| ==> events[m] != Crash(p)
    ensures Silent(RunOf(rule, w, events[..n]).calls, RunOf(rule, w, events).calls, p)
  {
    var before, after := events[..n], events[..n + 1];
    assert after[..n] == before && after[n] == events[n];
    InterruptionLatches(rule, RunOf(rule, w, before), p, applied);
    LatchSilences(rule, w, events, n + 1, p);
  }

  // ---- unresolved submissions, with calls one at a time -------------------------------------

  ghost predicate Quiet(w: World) {
    && (forall p :: 0 <= p < |w.procs| ==> w.procs[p].task.Idle?)
    && (forall k :: 0 <= k < |w.sides| ==> w.sides[k].Done?)
  }

  predicate Begins(e: Event) {
    e.Execute? || e.CancelOrder? || e.Reconcile? || e.Update?
  }

  /** Each service call starts when no other is under way; any of them may still end at any await. */
  ghost predicate Serial(rule: Uniqueness, w: World, events: seq<Event>) {
    forall n :: 0 <= n < |events| && Begins(events[n]) ==> Quiet(RunOf(rule, w, events[..n]))
  }

  /** One call at most is under way. */
  ghost predicate Alone(w: World) {
    && (forall p, q :: 0 <= p < q < |w.procs| ==> w.procs[p].task.Idle? || w.procs[q].task.Idle?)
    && (forall p, k :: 0 <= p < |w.procs| && 0 <= k < |w.sides| ==> w.procs[p].task.Idle? || w.sides[k].Done?)
    && (forall k, l :: 0 <= k < l < |w.sides| ==> w.sides[k].Done? || w.sides[l].Done?)
  }

  ghost predicate Submittable(s: Store, i: IntentId) {
    i in s.orders && s.orders[i].state.Submitting?
  }

  ghost predicate StageExpects(s: Store, job: Job, stage: Stage) {
    var i := job.intent.id;
    match stage
    case Equipping => if job.PlaceJob? then i.fingerprint !in s.prints else i !in s.orders
    case SavingIntent => i.fingerprint !in s.prints
    case SavingCommand => i !in s.orders
    case SavingPending => i !in s.orders
    case NotingPending => Submittable(s, i)
    case SavingRefusal => Submittable(s, i)
    case Calling => Submittable(s, i)
    case SavingResult(_) => Submittable(s, i)
    case _ => true
  }

  /** What an undisturbed task may expect of the store. */
  ghost predicate Expects(s: Store, proc: Process) {
    match proc.task
    case Surveying(ask) => PrintOf(ask.proposal) !in s.prints
    case SavingSurvey(ask, _) => PrintOf(ask.proposal) !in s.prints
    case Judging(ask) => PrintOf(ask.proposal) !in s.prints
    case SavingDecision(ask, _, _) => PrintOf(ask.proposal) !in s.prints
    case Reviewing(ask) => PrintOf(ask.proposal) !in s.prints
    case SavingAnswer(ask, _) => PrintOf(ask.proposal) !in s.prints
    case Rejudging(ask, _) => PrintOf(ask.proposal) !in s.prints
    case SavingRedecision(ask, _, _, _) => PrintOf(ask.proposal) !in s.prints
    case Working(job, stage) => StageExpects(s, job, stage)
    case _ => true
  }

  ghost predicate SideExpects(s: Store, t: SideTask) {
    match t
    case NotingUpdate(_, o, _, previous) => o.intent in s.orders && s.orders[o.intent].state == previous
    case SavingUpdate(_, o, evidence) =>
      o.intent in s.orders && (s.orders[o.intent].state.SubmissionUnknown? ==> evidence || o.state.SubmissionUnknown?)
    case _ => true
  }

  ghost predicate SerialInv(w: World) {
    && Alone(w)
    && (forall p :: 0 <= p < |w.procs| ==> Expects(w.store, w.procs[p]))
    && (forall k :: 0 <= k < |w.sides| ==> SideExpects(w.store, w.sides[k]))
  }

  /** The order of an intent leaves SUBMISSION_UNKNOWN. */
  ghost predicate Leaves(s: Store, s2: Store, i: IntentId) {
    i in s.orders && s.orders[i].state.SubmissionUnknown? && (i in s2.orders ==> !s2.orders[i].state.SubmissionUnknown?)
  }

  ghost predicate NothingLeft(s: Store, s2: Store) {
    forall i :: !Leaves(s, s2, i)
  }

  lemma AskWriteAside(rule: Uniqueness, s: Store, t: Task)
    requires !t.Working? && Written(rule, s, t).Some?
    ensures var s2 := Written(rule, s, t).value; s2.prints == s.prints && s2.orders == s.orders && s2.intents == s.intents
  {
  }

  lemma ExpectedEarly(w: World, p: nat, input: Input)
    requires p < |w.procs| && Early(w.procs[p].task) && Expects(w.store, w.procs[p]) && Indexed(w.store)
    ensures var v := ContinueAsk(w, p, input); Expects(w.store, v.procs[p])
  {
  }

  lemma ExpectedLate(w: World, p: nat, input: Input)
    requires p < |w.procs| && !Early(w.procs[p].task) && !w.procs[p].task.Working? && Expects(w.store, w.procs[p]) && Indexed(w.store)
    ensures Expects(w.store, ContinueAsk(w, p, input).procs[p])
  {
    if Cancelling(w.procs[p].task) { ExpectedCancel(w, p, input); } else { ExpectedReviewed(w, p, input); }
  }

  lemma ExpectedCancel(w: World, p: nat, input: Input)
    requires p < |w.procs| && Cancelling(w.procs[p].task) && !w.procs[p].task.Working? && Indexed(w.store)
    ensures Expects(w.store, ContinueAsk(w, p, input).procs[p])
  {
    CancelShape(w, p, input);
  }

  lemma CancelShape(w: World, p: nat, input: Input)
    requires p < |w.procs| && Cancelling(w.procs[p].task) && !w.procs[p].task.Working?
    ensures var t := ContinueAsk(w, p, input).procs[p].task;
      || t.Idle? || (Cancelling(t) && !t.Working?)
      || (t.Working? && t.stage.SavingIntent? && FindByPrint(w.store, t.job.intent.id.fingerprint).None?)
  {
  }

  lemma ExpectedReviewed(w: World, p: nat, input: Input)
    requires p < |w.procs| && Expects(w.store, w.procs[p])
    requires w.procs[p].task.SavingAnswer? || w.procs[p].task.Rejudging? || w.procs[p].task.SavingRedecision?
    ensures Expects(w.store, ContinueAsk(w, p, input).procs[p])
  {
  }

  lemma ExpectedAsk(rule: Uniqueness, w: World, p: nat, input: Input)
    requires p < |w.procs| && !w.procs[p].task.Working? && Expects(w.store, w.procs[p]) && Indexed(w.store)
    requires Written(rule, w.store, w.procs[p].task).Some?
    ensures var s2 := Written(rule, w.store, w.procs[p].task).value;
      Expects(s2, ContinueAsk(w.(store := s2), p, input).procs[p]) && NothingLeft(w.store, s2)
  {
    var s2 := Written(rule, w.store, w.procs[p].task).value;
    AskWriteAside(rule, w.store, w.procs[p].task);
    if Early(w.procs[p].task) { ExpectedEarly(w.(store := s2), p, input); } else { ExpectedLate(w.(store := s2), p, input); }
  }

  /** A write for the intent of an undisturbed job finds its order unsaved or SUBMITTING. */
  lemma ExpectedWrite(rule: Uniqueness, s: Store, calls: seq<BrokerCall>, n: Id, proc: Process)
    requires proc.task.Working? && StageExpects(s, proc.task.job, proc.task.stage) && TaskOk(rule, s, calls, n, proc)
    requires WriteOf(rule, s, proc.task.job, proc.task.stage).Some?
    ensures NothingLeft(s, WriteOf(rule, s, proc.task.job, proc.task.stage).value)
  {
    AnswerOf(rule, s, calls, n, proc);
    ExpectedOrder(rule, s, calls, proc.task.job, proc.task.stage);
  }

  lemma ExpectedOrder(rule: Uniqueness, s: Store, calls: seq<BrokerCall>, job: Job, stage: Stage)
    requires StageExpects(s, job, stage) && AnswerOk(calls, job, stage) && WriteOf(rule, s, job, stage).Some?
    ensures NothingLeft(s, WriteOf(rule, s, job, stage).value)
  {
    assert PendingOf(job).intent == job.intent.id;
  }

  lemma ExpectedSaved(rule: Uniqueness, w: World, p: nat, job: Job, stage: Stage, input: Input)
    requires p < |w.procs| && w.procs[p].task == Working(job, stage) && StageExpects(w.store, job, stage) && Indexed(w.store)
    requires WriteOf(rule, w.store, job, stage).Some? && (stage.Equipping? || stage.SavingIntent? || stage.SavingCommand?)
    ensures var s2 := WriteOf(rule, w.store, job, stage).value;
      Expects(s2, ContinueJob(w.(store := s2), p, job, stage, input).procs[p])
  {
    if stage.SavingIntent? { assert job.intent.id !in w.store.orders; }
  }

  lemma ExpectedSent(rule: Uniqueness, w: World, p: nat, job: Job, stage: Stage, input: Input)
    requires p < |w.procs| && w.procs[p].task == Working(job, stage) && StageExpects(w.store, job, stage)
    requires WriteOf(rule, w.store, job, stage).Some? && !stage.Equipping? && !stage.SavingIntent? && !stage.SavingCommand?
    ensures var s2 := WriteOf(rule, w.store, job, stage).value;
      Expects(s2, ContinueJob(w.(store := s2), p, job, stage, input).procs[p])
  {
    assert PendingOf(job).intent == job.intent.id && PendingOf(job).state.Submitting?;
  }

  lemma ExpectedJob(rule: Uniqueness, w: World, p: nat, job: Job, stage: Stage, input: Input)
    requires p < |w.procs| && w.procs[p].task == Working(job, stage) && StageExpects(w.store, job, stage) && Indexed(w.store)
    requires WriteOf(rule, w.store, job, stage).Some?
    ensures var s2 := WriteOf(rule, w.store, job, stage).value;
      Expects(s2, ContinueJob(w.(store := s2), p, job, stage, input).procs[p])
  {
    if stage.Equipping? || stage.SavingIntent? || stage.SavingCommand? { ExpectedSaved(rule, w, p, job, stage, input); }
    else { ExpectedSent(rule, w, p, job, stage, input); }
  }

  /** The event files a broker order found by reconciliation, or an update that carries evidence. */
  predicate Evident(w: World, e: Event, i: IntentId) {
    (e.SideProceed? || e.SideStop?) && e.k < |w.sides| &&
    var t := w.sides[e.k];
    (t.SavingMatch? && t.found.intent == i) || (t.SavingUpdate? && t.evidence && t.update.intent == i)
  }

  /** The locked task of `p` takes a step, alone. */
  lemma LockedAlone(w: World, v: World, p: nat)
    requires SerialInv(w) && p < |w.procs| == |v.procs| && !w.procs[p].task.Idle?
    requires v.procs == w.procs[p := v.procs[p]] && v.sides == w.sides && Expects(v.store, v.procs[p])
    ensures SerialInv(v)
  {
    forall q | 0 <= q < |v.procs| && q != p ensures v.procs[q].task.Idle? {}
    forall k | 0 <= k < |v.sides| ensures v.sides[k].Done? {}
  }

  lemma ProceedAlone(rule: Uniqueness, w: World, p: nat, input: Input)
    requires WorldInv(rule, w) && SerialInv(w) && p < |w.procs|
    ensures SerialInv(Advance(rule, w, p, input)) && NothingLeft(w.store, Advance(rule, w, p, input).store)
  {
    var t := w.procs[p].task;
    var v := Advance(rule, w, p, input);
    assert Expects(w.store, w.procs[p]) && TaskOk(rule, w.store, w.calls, w.nextId, w.procs[p]);
    if Written(rule, w.store, t).Some? {
      var u := w.(store := Written(rule, w.store, t).value);
      if t.Working? {
        ExpectedWrite(rule, w.store, w.calls, w.nextId, w.procs[p]);
        ExpectedJob(rule, w, p, t.job, t.stage, input);
        JobShape(u, p, t.job, t.stage, input);
      } else {
        ExpectedAsk(rule, w, p, input);
        AskShape(u, p, input);
      }
    }
    if !t.Idle? { LockedAlone(w, v, p); } else { assert v.procs == w.procs; }
  }

  lemma JobShape(w: World, p: nat, job: Job, stage: Stage, input: Input)
    requires p < |w.procs|
    ensures var v := ContinueJob(w, p, job, stage, input);
      && |v.procs| == |w.procs| && v.store == w.store && v.sides == w.sides && v.procs == w.procs[p := v.procs[p]]
  {
    assert w.procs == w.procs[p := w.procs[p]];
  }

  lemma BrokenExpects(s: Store, was: Process, proc: Process)
    requires proc == Interrupted(was) || proc == Raised(was, false) || proc == Raised(was, true)
    ensures Expects(s, proc) && (was.task.Idle? ==> proc.task.Idle?)
  {
  }

  lemma PartlyLeaves(rule: Uniqueness, w: World, p: nat, applied: bool)
    requires p < |w.procs| && Expects(w.store, w.procs[p]) && TaskOk(rule, w.store, w.calls, w.nextId, w.procs[p])
    ensures var v := Partly(rule, w, p, applied); v == w.(store := v.store) && NothingLeft(w.store, v.store)
    ensures w.procs[p].task.Idle? ==> Partly(rule, w, p, applied) == w
  {
    var t := w.procs[p].task;
    if applied && Written(rule, w.store, t).Some? {
      if t.Working? { ExpectedWrite(rule, w.store, w.calls, w.nextId, w.procs[p]); } else { AskWriteAside(rule, w.store, t); }
    }
  }

  /** An idle process may change its gates. */
  lemma IdleAlone(w: World, p: nat, proc: Process)
    requires SerialInv(w) && p < |w.procs| && w.procs[p].task.Idle? && proc.task.Idle?
    ensures SerialInv(With(w, p, proc))
  {
    var v := With(w, p, proc);
    forall q | 0 <= q < |v.procs| ensures Expects(v.store, v.procs[q]) { assert Expects(w.store, w.procs[q]); }
  }

  lemma BreakAlone(rule: Uniqueness, w: World, p: nat, applied: bool, proc: Process)
    requires WorldInv(rule, w) && SerialInv(w) && p < |w.procs|
    requires proc == Interrupted(w.procs[p]) || proc == Raised(w.procs[p], false) || proc == Raised(w.procs[p], true)
    ensures var v := With(Partly(rule, w, p, applied), p, proc); SerialInv(v) && NothingLeft(w.store, v.store)
  {
    assert Expects(w.store, w.procs[p]);
    AtTask(rule, w, p);
    PartlyLeaves(rule, w, p, applied);
    BrokenExpects(Partly(rule, w, p, applied).store, w.procs[p], proc);
    if w.procs[p].task.Idle? { IdleAlone(w, p, proc); }
    else { LockedAlone(w, With(Partly(rule, w, p, applied), p, proc), p); }
  }

  /** A step outside the lock, alone. */
  lemma SideAlone(w: World, k: nat, s2: Store, next: SideTask)
    requires SerialInv(w) && k < |w.sides| && (w.sides[k].Done? ==> next.Done? && s2 == w.store)
    requires SideExpects(s2, next)
    ensures SerialInv(w.(store := s2, sides := w.sides[k := next]))
  {
    var v := w.(store := s2, sides := w.sides[k := next]);
    if w.sides[k].Done? {
      assert v.sides == w.sides;
    } else {
      forall q | 0 <= q < |v.procs| ensures v.procs[q].task.Idle? {}
      forall l | 0 <= l < |v.sides| && l != k ensures v.sides[l].Done? {}
    }
  }

  /** Only a matched order or an update with evidence takes an order out of SUBMISSION_UNKNOWN. */
  lemma SideLeaves(w: World, k: nat, s2: Store)
    requires k < |w.sides| && SideExpects(w.store, w.sides[k])
    requires s2 == w.store || SideWrite(w.store, w.sides[k]) == Some(s2)
    ensures forall i :: Leaves(w.store, s2, i) ==> Evident(w, SideStop(k, true), i)
  {
  }

  lemma SideNextExpects(s: Store, s2: Store, proc: Process, t: SideTask, input: Input)
    requires SideWrite(s, t) == Some(s2) && SideExpects(s, t)
    ensures SideExpects(s2, SideNext(s2, proc, t, input))
  {
  }

  lemma LockedStepAlone(rule: Uniqueness, w: World, e: Event)
    requires WorldInv(rule, w) && SerialInv(w) && (e.Proceed? || e.Raise? || e.Interrupt?)
    ensures SerialInv(Step(rule, w, e)) && NothingLeft(w.store, Step(rule, w, e).store)
  {
    match e
    case Proceed(p, input) => if p < |w.procs| { ProceedAlone(rule, w, p, input); }
    case Raise(p, applied, unresolved) => if p < |w.procs| { BreakAlone(rule, w, p, applied, Raised(w.procs[p], unresolved)); }
    case Interrupt(p, applied) => if p < |w.procs| { BreakAlone(rule, w, p, applied, Interrupted(w.procs[p])); }
  }

  lemma SideStepAlone(rule: Uniqueness, w: World, e: Event)
    requires SerialInv(w) && (e.SideProceed? || e.SideStop?)
    ensures SerialInv(Step(rule, w, e))
    ensures forall i :: Leaves(w.store, Step(rule, w, e).store, i) ==> Evident(w, e, i)
  {
    match e
    case SideProceed(k, input) =>
      if k < |w.sides| && !w.sides[k].Done? && w.sides[k].p < |w.procs| {
        match SideWrite(w.store, w.sides[k])
        case None => SideAlone(w, k, w.store, Done);
        case Some(s) =>
          assert SideExpects(w.store, w.sides[k]);
          SideNextExpects(w.store, s, w.procs[w.sides[k].p], w.sides[k], input);
          SideLeaves(w, k, s);
          SideAlone(w, k, s, SideNext(s, w.procs[w.sides[k].p], w.sides[k], input));
      }
    case SideStop(k, applied) =>
      if k < |w.sides| {
        var s := SideWrite(w.store, w.sides[k]);
        assert SideExpects(w.store, w.sides[k]);
        SideLeaves(w, k, if applied && s.Some? then s.value else w.store);
        SideAlone(w, k, if applied && s.Some? then s.value else w.store, Done);
      }
  }

  /** With calls one at a time, an order leaves SUBMISSION_UNKNOWN only by a step with evidence. */
  lemma StepAlone(rule: Uniqueness, w: World, e: Event)
    requires WorldInv(rule, w) && SerialInv(w) && (Begins(e) ==> Quiet(w))
    ensures SerialInv(Step(rule, w, e))
    ensures forall i :: Leaves(w.store, Step(rule, w, e).store, i) ==> Evident(w, e, i)
  {
    if e.Proceed? || e.Raise? || e.Interrupt? { LockedStepAlone(rule, w, e); }
    else if e.SideProceed? || e.SideStop? { SideStepAlone(rule, w, e); }
    else if e.Crash? { if e.p < |w.procs| { CrashAlone(rule, w, e.p); } }
    else { BeginAlone(rule, w, e); }
  }

  lemma CrashAlone(rule: Uniqueness, w: World, p: nat)
    requires SerialInv(w) && p < |w.procs|
    ensures SerialInv(Step(rule, w, Crash(p))) && Step(rule, w, Crash(p)).store == w.store
  {
    var v := Step(rule, w, Crash(p));
    forall q | 0 <= q < |v.procs| ensures Expects(v.store, v.procs[q]) { assert Expects(w.store, w.procs[q]); }
    forall k | 0 <= k < |v.sides| ensures SideExpects(v.store, v.sides[k]) { assert SideExpects(w.store, w.sides[k]); }
  }

  lemma BeginAlone(rule: Uniqueness, w: World, e: Event)
    requires SerialInv(w) && (Begins(e) ==> Quiet(w)) && (Begins(e) || e.Turn?)
    ensures SerialInv(Step(rule, w, e)) && Step(rule, w, e).store == w.store
  {
    if e.p < |w.procs| {
      if e.Reconcile? { SideBegins(w, ReadingUnknown(e.p, e.intent)); }
      else if e.Update? { if Sent(w.calls, e.order.intent) { SideBegins(w, ReadingLocal(e.p, e.order, e.evidence)); } }
      else {
        assert w.procs == w.procs[e.p := w.procs[e.p]];
        assert Expects(w.store, w.procs[e.p]);
        LockedBegins(w, e.p, Step(rule, w, e).procs[e.p]);
      }
    }
  }

  lemma SideBegins(w: World, t: SideTask)
    requires SerialInv(w) && Quiet(w) && SideExpects(w.store, t)
    ensures SerialInv(w.(sides := w.sides + [t]))
  {
  }

  lemma LockedBegins(w: World, p: nat, proc: Process)
    requires SerialInv(w) && p < |w.procs| && (Quiet(w) || proc.task == w.procs[p].task) && Expects(w.store, proc)
    ensures SerialInv(With(w, p, proc))
  {
    var v := With(w, p, proc);
    forall q | 0 <= q < |v.procs| ensures Expects(v.store, v.procs[q]) { assert Expects(w.store, w.procs[q]); }
    forall q | 0 <= q < |v.procs| && q != p ensures v.procs[q].task == w.procs[q].task {}
  }

  lemma {:induction false} SerialRunsKeep(rule: Uniqueness, w: World, events: seq<Event>)
    requires Initial(w) && Serial(rule, w, events)
    ensures SerialInv(RunOf(rule, w, events))
    decreases |events|
  {
    if events != [] {
      var n := |events| - 1;
      forall m | 0 <= m < n ensures events[..n][..m] == events[..m] {}
      SerialRunsKeep(rule, w, events[..n]);
      RunsKeep(rule, w, events[..n]);
      StepAlone(rule, RunOf(rule, w, events[..n]), events[n]);
    }
  }

  /** In every serialised run, whatever was interrupted, crashed or lost in it: a stored
      SUBMISSION_UNKNOWN is left only by a step that carries reconciliation evidence. */
  lemma {:induction false} UnknownIsResolvedByEvidence(rule: Uniqueness, w: World, events: seq<Event>, e: Event, i: IntentId)
    requires Initial(w) && Serial(rule, w, events) && (Begins(e) ==> Quiet(RunOf(rule, w, events)))
    requires var u := RunOf(rule, w, events); Leaves(u.store, Step(rule, u, e).store, i)
    ensures Evident(RunOf(rule, w, events), e, i)
  {
    SerialRunsKeep(rule, w, events);
    RunsKeep(rule, w, events);
    StepAlone(rule, RunOf(rule, w, events), e);
  }

  // ---- the recorded lifecycle ---------------------------------------------------------------

  ghost predicate LegalNotes(s: Store) {
    forall n :: 0 <= n < |s.transitions| ==> var m := s.transitions[n].move; CanTransition(m.from, m.to, m.evidence)
  }

  lemma NoteIsLegal(s: Store, t: Transition)
    requires LegalNotes(s) && CanTransition(t.move.from, t.move.to, t.move.evidence)
    ensures LegalNotes(NoteTransition(s, t))
  {
  }

  lemma WriteNotes(rule: Uniqueness, s: Store, t: Task)
    requires LegalNotes(s) && Written(rule, s, t).Some?
    ensures LegalNotes(Written(rule, s, t).value)
  {
    if t.Working? {
      var i := t.job.intent.id;
      match t.stage
      case NotingPending => NoteIsLegal(s, Transition(i, Move(IntentPersisted, Submitting, false)));
      case NotingRefusal => NoteIsLegal(s, Transition(i, Move(Submitting, Rejected, false)));
      case NotingResult(o) => NoteIsLegal(s, Transition(i, Move(Submitting, o.state, false)));
      case NotingUnknown(_) => NoteIsLegal(s, Transition(i, Move(Submitting, SubmissionUnknown, false)));
      case _ => assert Written(rule, s, t).value.transitions == s.transitions;
    } else {
      assert Written(rule, s, t).value.transitions == s.transitions;
    }
  }

  lemma SideNotes(s: Store, t: SideTask)
    requires LegalNotes(s) && SideWrite(s, t).Some?
    ensures LegalNotes(SideWrite(s, t).value)
  {
  }

  /** One event leaves the store as it is or performs one await's write. */
  lemma StepWrites(rule: Uniqueness, w: World, e: Event)
    ensures var s2 := Step(rule, w, e).store;
      || s2 == w.store
      || ((e.Proceed? || e.Raise? || e.Interrupt?) && e.p < |w.procs| && Written(rule, w.store, w.procs[e.p].task) == Some(s2))
      || ((e.SideProceed? || e.SideStop?) && e.k < |w.sides| && SideWrite(w.store, w.sides[e.k]) == Some(s2))
  {
    if e.Proceed? && e.p < |w.procs| && Written(rule, w.store, w.procs[e.p].task).Some? {
      var t := w.procs[e.p].task;
      var u := w.(store := Written(rule, w.store, t).value);
      if t.Working? { JobShape(u, e.p, t.job, t.stage, e.input); } else { AskShape(u, e.p, e.input); }
    }
  }

  lemma StepNotes(rule: Uniqueness, w: World, e: Event)
    requires LegalNotes(w.store)
    ensures LegalNotes(Step(rule, w, e).store)
  {
    StepWrites(rule, w, e);
    if Step(rule, w, e).store != w.store {
      if e.SideProceed? || e.SideStop? { SideNotes(w.store, w.sides[e.k]); }
      else { WriteNotes(rule, w.store, w.procs[e.p].task); }
    }
  }

  /** In every run, serialised or not, each recorded transition is one the table allows; one out of
      SUBMISSION_UNKNOWN carries evidence. */
  lemma {:induction false} RecordedTransitionsAreLegal(rule: Uniqueness, w: World, events: seq<Event>)
    requires Initial(w)
    ensures LegalNotes(RunOf(rule, w, events).store)
    decreases |events|
  {
    if events != [] {
      RecordedTransitionsAreLegal(rule, w, events[..|events| - 1]);
      StepNotes(rule, RunOf(rule, w, events[..|events| - 1]), events[|events| - 1]);
    }
  }
}
