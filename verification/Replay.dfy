/** The replay engine: events in causal order on a virtual clock, handlers that see only what has
    been delivered. */
module Replay {
  import opened Dicts
  import opened Domain
  import opened Folds
  import opened Sorting

  /** Nothing below needs an observation to be effective before it is available. */
  datatype Event = Event(id: Id, kind: Id, effectiveAt: int, availableAt: int, payload: Id, sequence: nat)

  /** Availability first, then sequence, effective time and id. */
  predicate CausalLe(a: Event, b: Event) {
    a.availableAt < b.availableAt ||
    (a.availableAt == b.availableAt &&
     (a.sequence < b.sequence ||
      (a.sequence == b.sequence &&
       (a.effectiveAt < b.effectiveAt || (a.effectiveAt == b.effectiveAt && a.id <= b.id)))))
  }

  lemma CausalOrder()
    ensures Preorder(CausalLe)
    ensures forall a: Event, b: Event :: CausalLe(a, b) && CausalLe(b, a) ==> a.id == b.id
  {
  }

  /** What a handler is shown. */
  datatype View = View(now: int, events: seq<Event>)

  /** The output's digest for an event and what is visible then; `None` when no handler is registered
      for its kind. Handlers are deterministic and leave the clock alone. */
  type Handler = (Event, View) -> Option<Id>

  datatype ReplayFault = IdsNotUnique | ClockBackward | FutureEvent | DuplicateEvent

  datatype Progress = Progress(clock: int, observed: seq<Event>, outputs: seq<Id>)

  datatype ReplayResult = ReplayResult(events: seq<Event>, outputs: seq<Id>, startedAt: int, endedAt: int)

  function Visible(now: int, events: seq<Event>): seq<Event> {
    if events == [] then []
    else
      var last := events[|events| - 1];
      Visible(now, events[..|events| - 1]) + if last.availableAt <= now then [last] else []
  }

  predicate HasId(events: seq<Event>, id: Id) {
    exists i :: 0 <= i < |events| && events[i].id == id
  }

  predicate UniqueIds(events: seq<Event>) {
    forall i, j :: 0 <= i < j < |events| ==> events[i].id != events[j].id
  }

  function Emitted(output: Option<Id>): seq<Id> {
    match output case None => [] case Some(o) => [o]
  }

  /** Advance the clock, deliver the event, call its handler. */
  function Deliver(h: Handler, p: Progress, e: Event): Result<Progress, ReplayFault> {
    if e.availableAt < p.clock then Err(ClockBackward)
    else
      var now := e.availableAt;
      if e.availableAt > now then Err(FutureEvent)
      else if HasId(p.observed, e.id) then Err(DuplicateEvent)
      else
        var observed := p.observed + [e];
        var output := h(e, View(now, Visible(now, observed)));
        Ok(Progress(now, observed, p.outputs + Emitted(output)))
  }

  function DeliverStep(h: Handler): (Progress, Event) -> Result<Progress, ReplayFault> {
    (p: Progress, e: Event) => Deliver(h, p, e)
  }

  /** One run on an engine that has observed `before`. */
  function Run(h: Handler, clock: int, before: seq<Event>, events: seq<Event>): Result<(ReplayResult, Progress), ReplayFault> {
    var ordered := Sort(CausalLe, events);
    if !UniqueIds(ordered) then Err(IdsNotUnique)
    else if ordered != [] && ordered[0].availableAt < clock then Err(ClockBackward)
    else match Fold(DeliverStep(h), Progress(clock, before, []), ordered)
      case Err(f) => Err(f)
      case Ok(p) => Ok((ReplayResult(ordered, p.outputs, clock, p.clock), p))
  }

  class ReplayEngine {
    const handler: Handler
    var clock: int
    var observed: seq<Event>

    constructor (handler: Handler, clock: int)
      ensures this.handler == handler && this.clock == clock && observed == []
    {
      this.handler, this.clock, observed := handler, clock, [];
    }

    /** The context's guard against future and repeated events. */
    method Observe(e: Event) returns (fault: Option<ReplayFault>)
      modifies this`observed
      ensures fault == if e.availableAt > clock then Some(FutureEvent) else if HasId(old(observed), e.id) then Some(DuplicateEvent) else None
      ensures observed == if fault.None? then old(observed) + [e] else old(observed)
    {
      if e.availableAt > clock { return Some(FutureEvent); }
      for i := 0 to |observed|
        invariant forall j :: 0 <= j < i ==> observed[j].id != e.id
      {
        if observed[i].id == e.id { return Some(DuplicateEvent); }
      }
      observed := observed + [e];
      return None;
    }

    method RunEvents(events: seq<Event>) returns (r: Result<ReplayResult, ReplayFault>)
      modifies this
      ensures match Run(handler, old(clock), old(observed), events)
        case Err(f) => r == Err(f)
        case Ok(done) => r == Ok(done.0) && clock == done.1.clock && observed == done.1.observed
    {
      var ordered := Sort(CausalLe, events);
      if !UniqueIds(ordered) { return Err(IdsNotUnique); }
      if ordered != [] && ordered[0].availableAt < clock { return Err(ClockBackward); }
      var started, outputs: seq<Id> := clock, [];
      ghost var init := Progress(clock, observed, []);
      for i := 0 to |ordered|
        invariant Fold(DeliverStep(handler), init, ordered[..i]) == Ok(Progress(clock, observed, outputs))
      {
        var e := ordered[i];
        FoldNext(DeliverStep(handler), init, ordered, i);
        if e.availableAt < clock {
          FoldStops(DeliverStep(handler), init, ordered, i + 1);
          return Err(ClockBackward);
        }
        clock := e.availableAt;
        var fault := Observe(e);
        if fault.Some? {
          FoldStops(DeliverStep(handler), init, ordered, i + 1);
          return Err(fault.value);
        }
        var output := handler(e, View(clock, Visible(clock, observed)));
        outputs := outputs + Emitted(output);
      }
      assert ordered[..|ordered|] == ordered;
      return Ok(ReplayResult(ordered, outputs, started, clock));
    }
  }

  // ---- the order of the input does not matter -----------------------------------------------

  lemma {:induction false} UniqueAnyOrder(a: seq<Event>, b: seq<Event>)
    requires multiset(a) == multiset(b) && UniqueIds(a)
    ensures UniqueIds(b)
  {
    if i, j :| 0 <= i < j < |b| && b[i].id == b[j].id {
      assert b[i] in multiset(b) && b[j] in multiset(b);
      assert b[i] in a && b[j] in a;
      var k :| 0 <= k < |a| && a[k] == b[i];
      var l :| 0 <= l < |a| && a[l] == b[j];
      assert k == l;
      TwiceCounts(b, i, j);
      OnceCounts(a, k);
    }
  }

  lemma {:induction false} TwiceCounts(b: seq<Event>, i: nat, j: nat)
    requires i < j < |b| && b[i] == b[j]
    ensures multiset(b)[b[i]] >= 2
  {
    assert b == b[..i] + [b[i]] + b[i + 1..j] + [b[j]] + b[j + 1..];
  }

  lemma {:induction false} OnceCounts(a: seq<Event>, k: nat)
    requires UniqueIds(a) && k < |a|
    ensures multiset(a)[a[k]] == 1
  {
    assert a == a[..k] + [a[k]] + a[k + 1..];
    assert a[k] !in a[..k] && a[k] !in a[k + 1..];
    assert multiset(a[..k])[a[k]] == 0 && multiset(a[k + 1..])[a[k]] == 0;
  }

  lemma UniqueIsUntied(a: seq<Event>)
    requires UniqueIds(a)
    ensures Untied(CausalLe, a)
  {
    CausalOrder();
    forall x, y | x in a && y in a && CausalLe(x, y) && CausalLe(y, x) ensures x == y {
      var i :| 0 <= i < |a| && a[i] == x;
      var j :| 0 <= j < |a| && a[j] == y;
    }
  }

  /** The result is the same for every permutation of the events, errors included, on any engine. */
  lemma OrderIrrelevant(h: Handler, clock: int, before: seq<Event>, a: seq<Event>, b: seq<Event>)
    requires multiset(a) == multiset(b)
    ensures Run(h, clock, before, a) == Run(h, clock, before, b)
  {
    CausalOrder();
    SortKeeps(CausalLe, a);
    SortKeeps(CausalLe, b);
    var x, y := Sort(CausalLe, a), Sort(CausalLe, b);
    if UniqueIds(x) {
      UniqueIsUntied(x);
      SortedIsUnique(CausalLe, x, y);
    } else if UniqueIds(y) {
      UniqueAnyOrder(y, x);
    }
  }

  // ---- a fresh engine -----------------------------------------------------------------------

  /** Everything delivered so far is visible. */
  lemma {:induction false} AllVisible(now: int, events: seq<Event>)
    requires forall i :: 0 <= i < |events| ==> events[i].availableAt <= now
    ensures Visible(now, events) == events
  {
    if events != [] { AllVisible(now, events[..|events| - 1]); }
  }

  function OutputsOf(h: Handler, ordered: seq<Event>): seq<Id> {
    if ordered == [] then []
    else
      var n := |ordered| - 1;
      OutputsOf(h, ordered[..n]) + Emitted(h(ordered[n], View(ordered[n].availableAt, ordered)))
  }

  function ClockAfter(clock: int, ordered: seq<Event>): int {
    if ordered == [] then clock else ordered[|ordered| - 1].availableAt
  }

  lemma DeliverLater(h: Handler, p: Progress, e: Event)
    requires p.clock <= e.availableAt && !HasId(p.observed, e.id)
    requires forall i :: 0 <= i < |p.observed| ==> p.observed[i].availableAt <= e.availableAt
    ensures var all := p.observed + [e];
      Deliver(h, p, e) == Ok(Progress(e.availableAt, all, p.outputs + Emitted(h(e, View(e.availableAt, all)))))
  {
    AllVisible(e.availableAt, p.observed + [e]);
  }

  /** On a fresh engine no guard ever fires, nothing delivered is hidden, and each output is its
      handler's on exactly the events up to its own. */
  lemma {:induction false} FreshFold(h: Handler, clock: int, ordered: seq<Event>)
    requires Sorted(CausalLe, ordered) && UniqueIds(ordered) && (ordered != [] ==> clock <= ordered[0].availableAt)
    ensures Fold(DeliverStep(h), Progress(clock, [], []), ordered)
         == Ok(Progress(ClockAfter(clock, ordered), ordered, OutputsOf(h, ordered)))
    decreases |ordered|
  {
    if ordered != [] {
      var n := |ordered| - 1;
      var before, e := ordered[..n], ordered[n];
      FreshFold(h, clock, before);
      assert before + [e] == ordered;
      forall i | 0 <= i < n ensures before[i].availableAt <= e.availableAt { assert CausalLe(ordered[i], ordered[n]); }
      DeliverLater(h, Progress(ClockAfter(clock, before), before, OutputsOf(h, before)), e);
    }
  }

  /** The first event in causal order is the earliest available. */
  lemma FirstIsEarliest(ordered: seq<Event>, events: seq<Event>, clock: int)
    requires Sorted(CausalLe, ordered) && multiset(ordered) == multiset(events)
    ensures (ordered != [] ==> clock <= ordered[0].availableAt) <==> forall i :: 0 <= i < |events| ==> clock <= events[i].availableAt
  {
    if ordered == [] {
      assert |multiset(events)| == 0;
    } else {
      assert ordered[0] in multiset(events);
      forall i | 0 <= i < |events| ensures ordered[0].availableAt <= events[i].availableAt {
        assert events[i] in multiset(ordered);
        var k :| 0 <= k < |ordered| && ordered[k] == events[i];
        if k > 0 { assert CausalLe(ordered[0], ordered[k]); }
      }
    }
  }

  lemma {:induction false} UniqueSorted(events: seq<Event>)
    ensures UniqueIds(Sort(CausalLe, events)) <==> UniqueIds(events)
  {
    CausalOrder();
    SortKeeps(CausalLe, events);
    if UniqueIds(events) { UniqueAnyOrder(events, Sort(CausalLe, events)); }
    if UniqueIds(Sort(CausalLe, events)) { UniqueAnyOrder(Sort(CausalLe, events), events); }
  }

  predicate NotBeforeClock(clock: int, events: seq<Event>) {
    forall i :: 0 <= i < |events| ==> clock <= events[i].availableAt
  }

  /** A fresh engine succeeds exactly when ids are unique and nothing lies before its clock. */
  lemma {:induction false} FreshRun(h: Handler, clock: int, events: seq<Event>)
    ensures Run(h, clock, [], events).Ok? <==> UniqueIds(events) && NotBeforeClock(clock, events)
    ensures Run(h, clock, [], events).Ok? ==>
      var ordered := Sort(CausalLe, events);
      Run(h, clock, [], events).value.0 == ReplayResult(ordered, OutputsOf(h, ordered), clock, ClockAfter(clock, ordered))
  {
    var ordered := Sort(CausalLe, events);
    CausalOrder();
    SortKeeps(CausalLe, events);
    UniqueSorted(events);
    FirstIsEarliest(ordered, events, clock);
    if UniqueIds(ordered) && (ordered != [] ==> clock <= ordered[0].availableAt) { FreshFold(h, clock, ordered); }
  }

  // ---- no anticipation ----------------------------------------------------------------------

  function KnownBy(t: int, events: seq<Event>): seq<Event> {
    if events == [] then []
    else KnownBy(t, events[..|events| - 1]) + if events[|events| - 1].availableAt <= t then [events[|events| - 1]] else []
  }

  /** In causal order the events known by a time are a prefix. */
  lemma {:induction false} KnownIsPrefix(t: int, ordered: seq<Event>)
    requires Sorted(CausalLe, ordered)
    ensures KnownBy(t, ordered) <= ordered
    ensures KnownBy(t, ordered) != ordered ==> ordered[|ordered| - 1].availableAt > t
    decreases |ordered|
  {
    if ordered != [] {
      var n := |ordered| - 1;
      KnownIsPrefix(t, ordered[..n]);
      if ordered[n].availableAt <= t && n > 0 { assert CausalLe(ordered[n - 1], ordered[n]); }
    }
  }

  lemma {:induction false} KnownCounts(t: int, events: seq<Event>, e: Event)
    ensures multiset(KnownBy(t, events))[e] == if e.availableAt <= t then multiset(events)[e] else 0
    decreases |events|
  {
    if events != [] {
      var n := |events| - 1;
      KnownCounts(t, events[..n], e);
      assert events == events[..n] + [events[n]];
    }
  }

  lemma {:induction false} KnownSame(t: int, events: seq<Event>, other: seq<Event>)
    requires multiset(events) == multiset(other)
    ensures multiset(KnownBy(t, events)) == multiset(KnownBy(t, other))
  {
    forall e: Event ensures multiset(KnownBy(t, events))[e] == multiset(KnownBy(t, other))[e] {
      KnownCounts(t, events, e);
      KnownCounts(t, other, e);
    }
  }

  /** Sorting and cutting off at a time commute. */
  lemma {:induction false} KnownSorted(t: int, events: seq<Event>)
    requires UniqueIds(events)
    ensures Sort(CausalLe, KnownBy(t, events)) == KnownBy(t, Sort(CausalLe, events)) <= Sort(CausalLe, events)
    ensures UniqueIds(KnownBy(t, events))
  {
    var ordered := Sort(CausalLe, events);
    CausalOrder();
    SortKeeps(CausalLe, events);
    KnownIsPrefix(t, ordered);
    UniqueAnyOrder(events, ordered);
    KnownSame(t, events, ordered);
    UniqueIsUntied(KnownBy(t, ordered));
    SortFinds(CausalLe, KnownBy(t, events), KnownBy(t, ordered));
    UniqueAnyOrder(KnownBy(t, ordered), KnownBy(t, events));
  }

  lemma {:induction false} KnownAmong(t: int, events: seq<Event>, e: Event)
    requires e in KnownBy(t, events)
    ensures e in events
    decreases |events|
  {
    var n := |events| - 1;
    if e in KnownBy(t, events[..n]) { KnownAmong(t, events[..n], e); }
  }

  lemma {:induction false} PrefixOutputs(h: Handler, part: seq<Event>, whole: seq<Event>)
    requires part <= whole
    ensures OutputsOf(h, part) <= OutputsOf(h, whole)
    decreases |whole|
  {
    if |part| < |whole| { PrefixOutputs(h, part, whole[..|whole| - 1]); } else { assert part == whole; }
  }

  /** Running only what is available by a time gives, event by event and output by output, the
      beginning of the full run: nothing later has any influence. */
  lemma {:induction false} NoAnticipation(h: Handler, clock: int, events: seq<Event>, t: int)
    requires Run(h, clock, [], events).Ok?
    ensures Run(h, clock, [], KnownBy(t, events)).Ok?
    ensures var part, whole := Run(h, clock, [], KnownBy(t, events)).value.0, Run(h, clock, [], events).value.0;
      part.events == KnownBy(t, whole.events) && part.events <= whole.events && part.outputs <= whole.outputs
  {
    var known := KnownBy(t, events);
    FreshRun(h, clock, events);
    KnownSorted(t, events);
    forall i | 0 <= i < |known| ensures clock <= known[i].availableAt {
      assert known[i] in known;
      KnownAmong(t, events, known[i]);
    }
    FreshRun(h, clock, known);
    PrefixOutputs(h, Sort(CausalLe, known), Sort(CausalLe, events));
  }
}
