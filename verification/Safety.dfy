/** The fail-closed safety controller, and what every history that reaches NORMAL looks like. */
module Safety {
  import opened Dicts

  datatype RuntimeState = Normal | EntryDisabled | ExitOnly | Halted

  function Rank(s: RuntimeState): nat {
    match s case Normal => 0 case EntryDisabled => 1 case ExitOnly => 2 case Halted => 3
  }

  datatype Evidence = Evidence(
    databaseWritable: bool, brokerKnown: bool, reconciled: bool, marketFresh: bool, accountFresh: bool,
    serviceHealthy: bool, killSwitchClear: bool, environmentMatches: bool, unresolved: bool)
  {
    predicate PermitsNormal() {
      databaseWritable && brokerKnown && reconciled && marketFresh && accountFresh && serviceHealthy
      && killSwitchClear && environmentMatches && !unresolved
    }
  }

  /** The controller's fields; `since` is when the current healthy stretch began. */
  datatype Condition = Condition(state: RuntimeState, since: Option<int>, paused: bool)

  predicate PermitsEntry(s: RuntimeState) {
    s.Normal?
  }

  predicate PermitsExit(s: RuntimeState) {
    !s.Halted?
  }

  const Startup := Condition(EntryDisabled, None, false)

  datatype Event =
    | Degrade(target: RuntimeState)
    | Stop
    | Pause
    | Resume(evidence: Evidence, cleared: bool, at: int)
    | Observe(evidence: Evidence, cleared: bool, at: int)

  // ---- the operations -----------------------------------------------------------------------

  function Degraded(c: Condition, target: RuntimeState): Condition {
    if target.Normal? then c   // refused
    else if Rank(target) >= Rank(c.state) then c.(state := target, since := None) else c
  }

  function Observed(window: int, c: Condition, e: Evidence, cleared: bool, at: int): Condition {
    if !e.killSwitchClear || e.unresolved || !e.databaseWritable then c.(state := Halted, since := None)
    else if !e.brokerKnown || !e.environmentMatches || c.paused || !e.PermitsNormal() then Degraded(c, EntryDisabled)
    else if c.state.Halted? && !cleared then c
    else match c.since
      case None => c.(since := Some(at), state := EntryDisabled)
      case Some(t) =>
        if at < t then Degraded(c, EntryDisabled)
        else if at - t >= window then c.(state := Normal) else c
  }

  function Step(window: int, c: Condition, e: Event): Condition {
    match e
    case Degrade(target) => Degraded(c, target)
    case Stop => c.(state := Halted, since := None)
    case Pause => Degraded(c.(paused := true), EntryDisabled)
    case Resume(v, cleared, at) => Observed(window, c.(paused := false), v, cleared, at)
    case Observe(v, cleared, at) => Observed(window, c, v, cleared, at)
  }

  function After(window: int, events: seq<Event>): Condition {
    if events == [] then Startup else Step(window, After(window, events[..|events| - 1]), events[|events| - 1])
  }

  class SafetyController {
    const window: int
    var state: RuntimeState
    var since: Option<int>
    var paused: bool

    function Now(): Condition
      reads this
    {
      Condition(state, since, paused)
    }

    constructor (window: int)
      ensures Now() == Startup && this.window == window
    {
      this.window := window;
      state, since, paused := EntryDisabled, None, false;
    }

    method DegradeTo(target: RuntimeState) returns (refused: bool)
      modifies this
      ensures Now() == Step(window, old(Now()), Degrade(target)) && (refused <==> target.Normal?)
    {
      if target.Normal? { return true; }
      if Rank(target) >= Rank(state) {
        state, since := target, None;
      }
      return false;
    }

    method EmergencyStop()
      modifies this
      ensures Now() == Step(window, old(Now()), Stop)
    {
      state, since := Halted, None;
    }

    method PauseEntries()
      modifies this
      ensures Now() == Step(window, old(Now()), Pause)
    {
      paused := true;
      var _ := DegradeTo(EntryDisabled);
    }

    method ResumeEntries(evidence: Evidence, cleared: bool, at: int)
      modifies this
      ensures Now() == Step(window, old(Now()), Resume(evidence, cleared, at))
    {
      paused := false;
      ObserveEvidence(evidence, cleared, at);
    }

    method ObserveEvidence(e: Evidence, cleared: bool, at: int)
      modifies this
      ensures Now() == Step(window, old(Now()), Observe(e, cleared, at))
    {
      if !e.killSwitchClear || e.unresolved || !e.databaseWritable {
        EmergencyStop();
        return;
      }
      if !e.brokerKnown || !e.environmentMatches || paused || !e.PermitsNormal() {
        var _ := DegradeTo(EntryDisabled);
        return;
      }
      if state.Halted? && !cleared { return; }
      if since.None? {
        since, state := Some(at), EntryDisabled;
        return;
      }
      if at < since.value {
        var _ := DegradeTo(EntryDisabled);
        return;
      }
      if at - since.value >= window {
        state := Normal;
      }
    }
  }

  // ---- histories ----------------------------------------------------------------------------

  predicate IsObservation(e: Event) {
    e.Observe? || e.Resume?
  }

  predicate Healthy(e: Event) {
    IsObservation(e) && e.evidence.PermitsNormal()
  }

  predicate PausedAfter(events: seq<Event>) {
    events != [] &&
    var last := events[|events| - 1];
    if last.Pause? then true else if last.Resume? then false else PausedAfter(events[..|events| - 1])
  }

  /** What leaves a healthy stretch that began at `t` unbroken: another healthy observation on a
      clock that has not gone back, or a request the controller refuses. */
  predicate Calm(e: Event, t: int) {
    (Healthy(e) && e.at >= t) || e == Degrade(Normal)
  }

  /** A healthy, unpaused observation at `i`, and nothing but calm since. */
  ghost predicate Stretch(events: seq<Event>, i: int) {
    && 0 <= i < |events| && Healthy(events[i]) && !PausedAfter(events[..i + 1])
    && forall k :: i < k < |events| ==> Calm(events[k], events[i].at)
  }

  ghost predicate Matured(window: int, events: seq<Event>, i: int, j: int) {
    Stretch(events, i) && i < j < |events| && Healthy(events[j]) && events[j].at - events[i].at >= window
  }

  /** A stretch is known to have begun only in ENTRY_DISABLED or NORMAL and never while paused,
      so that every effective degrade, pause or stop ends it. */
  ghost predicate Consistent(c: Condition) {
    (c.since.Some? ==> (c.state.Normal? || c.state.EntryDisabled?) && !c.paused) && (c.state.Normal? ==> c.since.Some?)
  }

  /** The stretch could begin: the controller was not halted, or the halt was cleared there. */
  ghost predicate Admitted(window: int, events: seq<Event>, i: int) {
    0 <= i < |events| && IsObservation(events[i]) && (After(window, events[..i]).state.Halted? ==> events[i].cleared)
  }

  ghost predicate Begun(window: int, events: seq<Event>, c: Condition, i: int) {
    Stretch(events, i) && Admitted(window, events, i) && c.since == Some(events[i].at)
  }

  lemma StretchGrows(events: seq<Event>, i: int)
    requires |events| > 0 && Stretch(events[..|events| - 1], i) && Calm(events[|events| - 1], events[i].at)
    ensures Stretch(events, i)
  {
    var before := events[..|events| - 1];
    assert before[..i + 1] == events[..i + 1];
    forall k | i < k < |events| ensures Calm(events[k], events[i].at) {
      if k < |before| { assert events[k] == before[k]; }
    }
  }

  /** The current stretch, and whether it has matured, as a history. */
  ghost predicate Told(window: int, events: seq<Event>, c: Condition) {
    c.since.Some? ==> exists i :: Begun(window, events, c, i) && (c.state.Normal? ==> exists j :: Matured(window, events, i, j))
  }

  lemma StepConsistent(window: int, c: Condition, e: Event)
    requires Consistent(c)
    ensures Consistent(Step(window, c, e))
    ensures var d := Step(window, c, e);
      d.since.Some? ==>
        if c.since == d.since then Calm(e, d.since.value) && (d.state == c.state || (Healthy(e) && e.at - d.since.value >= window))
        else IsObservation(e) && Healthy(e) && d.since == Some(e.at) && (c.state.Halted? ==> e.cleared) && !d.state.Normal?
    ensures Step(window, c, e).paused == if e.Pause? then true else if e.Resume? then false else c.paused
  {
  }

  lemma {:induction false} Continued(window: int, events: seq<Event>, b: Condition, c: Condition, e: Event)
    requires Told(window, events, b) && b.since.Some? && c.since == b.since && Calm(e, c.since.value)
    requires c.state == b.state || (Healthy(e) && e.at - c.since.value >= window)
    ensures Told(window, events + [e], c)
  {
    var more := events + [e];
    var n := |events|;
    assert more[..n] == events;
    var i :| Begun(window, events, b, i) && (b.state.Normal? ==> exists j :: Matured(window, events, i, j));
    StretchGrows(more, i);
    assert more[..i] == events[..i];
    assert Begun(window, more, c, i);
    if c.state.Normal? {
      if b.state.Normal? {
        var j :| Matured(window, events, i, j);
        assert Matured(window, more, i, j);
      } else {
        assert Matured(window, more, i, n);
      }
    }
  }

  /** Every history of the controller: the fields tell exactly the current stretch, and NORMAL
      means that it has matured. */
  lemma {:induction false} HistoryOf(window: int, events: seq<Event>)
    ensures Consistent(After(window, events)) && After(window, events).paused == PausedAfter(events)
    ensures Told(window, events, After(window, events))
    decreases |events|
  {
    if events != [] {
      var n := |events| - 1;
      var before, e := events[..n], events[n];
      assert before + [e] == events && events[..n + 1] == events;
      HistoryOf(window, before);
      var b, c := After(window, before), After(window, events);
      StepConsistent(window, b, e);
      if c.since.Some? {
        if b.since == c.since { Continued(window, before, b, c, e); }
        else { assert Begun(window, events, c, n); }
      }
    }
  }

  /** NORMAL only ever stands at the end of an unbroken run of at least two healthy, unpaused
      observations, one of them at least the window after the first. */
  lemma {:induction false} NormalIsEarned(window: int, events: seq<Event>)
    requires After(window, events).state.Normal?
    ensures exists i, j :: Matured(window, events, i, j)
  {
    HistoryOf(window, events);
  }

  ghost predicate Clocked(events: seq<Event>) {
    forall i, j :: 0 <= i < j < |events| && IsObservation(events[i]) && IsObservation(events[j]) ==> events[i].at <= events[j].at
  }

  lemma {:induction false} SinceIsObserved(window: int, events: seq<Event>, i: int)
    requires Clocked(events) && Stretch(events, i) && Told(window, events[..i], After(window, events[..i]))
    ensures var b := After(window, events[..i]); b.since.Some? ==> b.since.value <= events[i].at
  {
    var b := After(window, events[..i]);
    if b.since.Some? {
      var k :| Begun(window, events[..i], b, k);
      assert events[..i][k] == events[k];
    }
  }

  /** What one calm observation, or the first of a stretch, does to the fields. */
  lemma CalmStep(window: int, c: Condition, e: Event, t: int)
    requires c.since.Some? && c.since.value <= t && Calm(e, t) && Consistent(c)
    ensures var d := Step(window, c, e);
      d.since == c.since && (c.state.Normal? ==> d.state.Normal?) && (Healthy(e) && e.at - t >= window ==> d.state.Normal?)
  {
  }

  ghost predicate MaturedBy(window: int, events: seq<Event>, i: int, n: int) {
    exists j :: Matured(window, events, i, j) && j < n
  }

  lemma MaturedNext(window: int, events: seq<Event>, i: int, n: int)
    requires MaturedBy(window, events, i, n) && !MaturedBy(window, events, i, n - 1)
    ensures Matured(window, events, i, n - 1)
  {
    var j :| Matured(window, events, i, j) && j < n;
    if j < n - 1 { assert MaturedBy(window, events, i, n - 1); }
  }

  lemma {:induction false} StretchHolds(window: int, events: seq<Event>, i: int, n: nat)
    requires Clocked(events) && Stretch(events, i) && Admitted(window, events, i) && i < n <= |events|
    ensures var c := After(window, events[..n]); c.since.Some? && c.since.value <= events[i].at
    ensures MaturedBy(window, events, i, n) ==> After(window, events[..n]).state.Normal?
    decreases n
  {
    assert events[..n][..n - 1] == events[..n - 1] && events[..n][n - 1] == events[n - 1];
    HistoryOf(window, events[..n - 1]);
    if n - 1 > i {
      StretchHolds(window, events, i, n - 1);
      CalmStep(window, After(window, events[..n - 1]), events[n - 1], events[i].at);
      if MaturedBy(window, events, i, n) && !MaturedBy(window, events, i, n - 1) { MaturedNext(window, events, i, n); }
    } else {
      SinceIsObserved(window, events, i);
      FirstOfStretch(window, events, i);
      assert !MaturedBy(window, events, i, n);
    }
  }

  lemma {:induction false} FirstOfStretch(window: int, events: seq<Event>, i: int)
    requires Stretch(events, i) && Admitted(window, events, i)
    requires var b := After(window, events[..i]);
      Consistent(b) && b.paused == PausedAfter(events[..i]) && (b.since.Some? ==> b.since.value <= events[i].at)
    ensures var c := After(window, events[..i + 1]); c.since.Some? && c.since.value <= events[i].at
  {
    assert events[..i + 1][..i] == events[..i] && events[..i + 1][i] == events[i];
  }

  /** On a clock that does not go back, NORMAL is exactly a matured, admitted stretch. */
  lemma {:induction false} NormalExactly(window: int, events: seq<Event>)
    requires Clocked(events)
    ensures After(window, events).state.Normal? <==>
      exists i, j :: Matured(window, events, i, j) && Admitted(window, events, i)
  {
    assert events[..|events|] == events;
    HistoryOf(window, events);
    if i, j :| Matured(window, events, i, j) && Admitted(window, events, i) {
      assert MaturedBy(window, events, i, |events|);
      StretchHolds(window, events, i, |events|);
    }
    if After(window, events).state.Normal? {
      var c := After(window, events);
      var i :| Begun(window, events, c, i) && exists j :: Matured(window, events, i, j);
      var j :| Matured(window, events, i, j);
    }
  }

  /** A halt is left exactly by a healthy observation that clears it while entries are not paused,
      into the first moment of a new stretch. */
  lemma HaltNeedsClearance(window: int, c: Condition, e: Event)
    requires c.state.Halted? && c.since.None?
    ensures !Step(window, c, e).state.Halted? <==> Healthy(e) && e.cleared && (c.paused ==> e.Resume?)
    ensures !Step(window, c, e).state.Halted? ==> Step(window, c, e) == Condition(EntryDisabled, Some(e.at), false)
  {
  }

  /** So a halt outlasts every history without a healthy observation that clears it, and then
      leads back to NORMAL only through a whole new stretch. */
  lemma {:induction false} HaltLasts(window: int, events: seq<Event>, k: nat)
    requires k <= |events| && After(window, events[..k]).state.Halted?
    requires forall m :: k <= m < |events| && Healthy(events[m]) ==> !events[m].cleared
    ensures After(window, events).state.Halted?
    decreases |events|
  {
    if k < |events| {
      var n := |events| - 1;
      assert events[..n][..k] == events[..k];
      HaltLasts(window, events[..n], k);
      HistoryOf(window, events[..n]);
      HaltNeedsClearance(window, After(window, events[..n]), events[n]);
    } else {
      assert events[..k] == events;
    }
  }
}
