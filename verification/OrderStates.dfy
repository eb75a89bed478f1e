/** The table of durable order lifecycle transitions. */
module OrderStates {
  import opened Domain

  function Targets(s: OrderState): set<OrderState> {
    match s
    case Proposed => {Reviewed, Rejected}
    case Reviewed => {Approved, Rejected}
    case Approved => {IntentPersisted, Rejected}
    case IntentPersisted => {Submitting, Rejected}
    case Submitting => {SubmissionUnknown, Open, Partial, Filled, Canceled, Rejected}
    case SubmissionUnknown => {Open, Partial, Filled, Canceled, Rejected, Expired}
    case Open => {Partial, Filled, Canceled, Expired}
    case Partial => {Partial, Filled, Canceled, Expired}
    case Filled => {}
    case Canceled => {}
    case Rejected => {}
    case Expired => {}
  }

  predicate CanTransition(current: OrderState, target: OrderState, evidence: bool) {
    (current.SubmissionUnknown? ==> evidence) && target in Targets(current)
  }

  datatype Move = Move(from: OrderState, to: OrderState, evidence: bool)

  /** A lifecycle: allowed moves, each from where the last one led. */
  ghost predicate Lifecycle(start: OrderState, moves: seq<Move>) {
    && (forall i :: 0 <= i < |moves| ==> CanTransition(moves[i].from, moves[i].to, moves[i].evidence))
    && (moves != [] ==> moves[0].from == start)
    && (forall i :: 0 < i < |moves| ==> moves[i].from == moves[i - 1].to)
  }

  function EndState(start: OrderState, moves: seq<Move>): OrderState {
    if moves == [] then start else moves[|moves| - 1].to
  }

  function Progress(s: OrderState): nat {
    match s
    case Proposed => 0 case Reviewed => 1 case Approved => 2 case IntentPersisted => 3 case Submitting => 4
    case SubmissionUnknown => 5 case Open => 6 case Partial => 7
    case Filled => 8 case Canceled => 8 case Rejected => 8 case Expired => 8
  }

  /** A lifecycle only moves forward, repeating no state but PARTIAL, and ends for good in exactly
      the four terminal states. */
  lemma {:induction false} LifecyclesAdvance(start: OrderState, moves: seq<Move>, i: nat, j: nat)
    requires Lifecycle(start, moves) && i < j < |moves|
    ensures Progress(moves[i].to) < Progress(moves[j].to) || moves[i].to == moves[j].to == Partial
    ensures !IsTerminal(moves[i].to)
    decreases j
  {
    assert moves[j].from == moves[j - 1].to;
    if i < j - 1 { LifecyclesAdvance(start, moves, i, j - 1); }
    assert CanTransition(moves[i + 1].from, moves[i + 1].to, moves[i + 1].evidence) && moves[i + 1].from == moves[i].to;
  }

  predicate BeforeSubmission(s: OrderState) {
    Progress(s) < 4
  }

  /** No order reaches a state only a broker can give it without having been SUBMITTING. */
  lemma {:induction false} BrokerStatesFollowSubmission(start: OrderState, moves: seq<Move>)
    requires Lifecycle(start, moves) && BeforeSubmission(start)
    requires var e := EndState(start, moves); !BeforeSubmission(e) && !e.Rejected?
    ensures exists i :: 0 <= i < |moves| && moves[i].to == Submitting
    decreases |moves|
  {
    var n := |moves| - 1;
    var before := moves[..n];
    assert CanTransition(moves[n].from, moves[n].to, moves[n].evidence);
    if n == 0 || BeforeSubmission(moves[n].from) {
      assert moves[n].to == Submitting;
    } else {
      assert moves[n].from == moves[n - 1].to;
      BrokerStatesFollowSubmission(start, before);
      var i :| 0 <= i < n && before[i].to == Submitting;
      assert moves[i].to == Submitting;
    }
  }

  /** An unresolved submission is left with reconciliation evidence or not at all. */
  lemma UnknownNeedsEvidence(start: OrderState, moves: seq<Move>, i: nat)
    requires Lifecycle(start, moves) && i + 1 < |moves| && moves[i].to.SubmissionUnknown?
    ensures moves[i + 1].evidence && (IsTerminal(moves[i + 1].to) || IsOpen(moves[i + 1].to))
  {
    assert moves[i + 1].from == moves[i].to;
    assert CanTransition(moves[i + 1].from, moves[i + 1].to, moves[i + 1].evidence);
  }
}
