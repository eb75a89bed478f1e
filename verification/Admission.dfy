/** The execution service, the risk engine and the ledger together. The service's lock lets one
    proposal at a time be judged on an account snapshot, gated again on that same snapshot, and
    delivered to the ledger; every other ledger call may fall between those three moments. */
module Admission {
  import opened Dicts
  import opened Domain
  import opened LedgerState
  import opened LedgerInvariant
  import opened LedgerRuns
  import opened LedgerHistory
  import opened RiskEngine

  datatype Judgement = Judgement(proposal: Proposal, at: Instant, account: Account, quote: Quote)

  /** Where the holder of the execution lock stands. */
  datatype Phase = Free | Judged(j: Judgement) | Sent(j: Judgement, command: Command)

  datatype System = System(ledger: Ledger, phase: Phase)

  datatype Event =
    | Other(op: Op)                           // a quote, expiry, cancel, deposit or review
    | Judge(proposal: Proposal, quote: Quote) // snapshot and post-review risk decision
    | Gate(command: Command)                  // last check before transmission
    | Deliver                                 // the command reaches the ledger
    | Release                                 // denial, crash or cancellation of the holder

  datatype Moment = Moment(event: Event, now: Instant)

  predicate Matches(p: Proposal, c: Command) {
    && c.action.PlaceOptionOrder? && c.environment == p.environment && c.namespace == p.namespace
    && c.instrument == p.contract.instrument && c.side == p.side && c.quantity == p.quantity && c.limit == p.limit
    && c.proposalId == p.proposalId
    && c.orderIntentId == c.idempotencyKey   // the intent id is derived from the key
  }

  function Step(cfg: Config, rc: RiskConfig, x: System, m: Moment): System {
    match m.event
    case Other(op) => if op.OpSubmit? then x else x.(ledger := Apply(cfg, x.ledger, Call(op, m.now)).0)
    case Judge(p, q) =>
      var account := AccountSnapshot(cfg, x.ledger, m.now);
      if x.phase.Free? && EvaluateRisk(rc, p, account, q, m.now.t).allowed
      then x.(phase := Judged(Judgement(p, m.now, account, q))) else x
    case Gate(c) =>
      if x.phase.Judged? && Matches(x.phase.j.proposal, c)
         && EvaluateRisk(rc, x.phase.j.proposal, x.phase.j.account, x.phase.j.quote, m.now.t).allowed
      then x.(phase := Sent(x.phase.j, c)) else x
    case Deliver =>
      if x.phase.Sent?
      then System(Submit(cfg, x.ledger, x.phase.command, x.phase.j.proposal.contract, m.now).ledger, Free) else x
    case Release => x.(phase := Free)
  }

  ghost predicate EventListed(listing: Listing, e: Event) {
    (e.Other? ==> OpListed(listing, e.op)) && (e.Judge? ==> Listed(listing, e.proposal.contract))
  }

  /** The configured limits, held by the ledger itself. */
  ghost predicate LimitsHold(rc: RiskConfig, s: Ledger) {
    && OpenOptionRisk(s) <= rc.maxTotalRisk
    && |OpenInstruments(s)| <= rc.maxPositions
    && (rc.dailyEnabled ==> forall day: int :: |AcceptedOn(s.orders, day)| <= rc.maxEntries)
  }

  ghost predicate Recorded(s: Ledger) {
    && (forall day: int :: AcceptedOn(s.orders, day) <= EntriesOn(s, day))
    && (forall i :: 0 <= i < |s.orders| ==> s.orders[i].0 in s.orderByKey)
  }

  /** The snapshot of a judgement still bounds the ledger from above. */
  ghost predicate StillBounds(listing: Listing, s: Ledger, j: Judgement) {
    && Listed(listing, j.proposal.contract)
    && OpenOptionRisk(s) <= j.account.openOptionRisk
    && |OpenInstruments(s)| <= j.account.openPositions
    && |AcceptedOn(s.orders, j.at.day)| <= j.account.newEntriesToday
    && (forall day: int :: day > j.at.day ==> AcceptedOn(s.orders, day) == {})
  }

  ghost predicate SystemInv(cfg: Config, listing: Listing, rc: RiskConfig, x: System, now: Instant) {
    && Inv(cfg, listing, x.ledger, now) && Recorded(x.ledger) && LimitsHold(rc, x.ledger)
    && (!x.phase.Free? ==> StillBounds(listing, x.ledger, x.phase.j) && NotBefore(now, x.phase.j.at))
    && (x.phase.Sent? ==>
          && Matches(x.phase.j.proposal, x.phase.command)
          && (x.phase.j.proposal.side.BuyToOpen? ==> WithinLimits(rc, x.phase.j.proposal, x.phase.j.account)))
  }

  lemma QuietDays(s: Ledger, t: Ledger)
    requires Quiet(s, t)
    ensures forall day: int :: AcceptedOn(t.orders, day) == AcceptedOn(s.orders, day) && EntriesOn(s, day) <= EntriesOn(t, day)
    ensures |OpenInstruments(t)| <= |OpenInstruments(s)|
  {
    SmallerSet(OpenInstruments(t), OpenInstruments(s));
    forall day: int ensures AcceptedOn(t.orders, day) == AcceptedOn(s.orders, day) { AcceptedStays(s.orders, t.orders, day); }
  }

  lemma QuietRecorded(s: Ledger, t: Ledger)
    requires Quiet(s, t) && Recorded(s)
    ensures Recorded(t)
  {
    QuietDays(s, t);
    forall day: int ensures AcceptedOn(t.orders, day) <= EntriesOn(t, day) {
      assert AcceptedOn(s.orders, day) <= EntriesOn(s, day);
    }
    forall i | 0 <= i < |t.orders| ensures t.orders[i].0 in t.orderByKey { assert s.orders[i].0 in s.orderByKey.Keys; }
  }

  lemma QuietBounds(listing: Listing, s: Ledger, t: Ledger, rc: RiskConfig)
    requires Quiet(s, t) && OpenOptionRisk(t) <= OpenOptionRisk(s)
    ensures LimitsHold(rc, s) ==> LimitsHold(rc, t)
    ensures forall j :: StillBounds(listing, s, j) ==> StillBounds(listing, t, j)
  {
    QuietDays(s, t);
  }

  lemma OtherKeeps(cfg: Config, listing: Listing, rc: RiskConfig, x: System, op: Op, now: Instant)
    requires SystemInv(cfg, listing, rc, x, now) && OpListed(listing, op) && !op.OpSubmit?
    ensures SystemInv(cfg, listing, rc, Step(cfg, rc, x, Moment(Other(op), now)), now)
  {
    var call := Call(op, now);
    StepKeeps(cfg, listing, x.ledger, call);
    ApplyQuiet(cfg, listing, x.ledger, call);
    QuietRecorded(x.ledger, Apply(cfg, x.ledger, call).0);
    QuietBounds(listing, x.ledger, Apply(cfg, x.ledger, call).0, rc);
  }

  lemma JudgeKeeps(cfg: Config, listing: Listing, rc: RiskConfig, x: System, p: Proposal, q: Quote, now: Instant)
    requires SystemInv(cfg, listing, rc, x, now) && Listed(listing, p.contract)
    ensures SystemInv(cfg, listing, rc, Step(cfg, rc, x, Moment(Judge(p, q), now)), now)
  {
    SmallerSet(AcceptedOn(x.ledger.orders, now.day), EntriesOn(x.ledger, now.day));
    forall day: int | day > now.day ensures AcceptedOn(x.ledger.orders, day) == {} {
      forall i | 0 <= i < |x.ledger.orders| ensures !AcceptedBuy(x.ledger.orders[i].1, day) {
        assert OrderOk(cfg, listing, x.ledger.orders[i].0, x.ledger.orders[i].1, now);
      }
    }
  }

  lemma AppendAccepted(d: Dict<Id, LedgerOrder>, id: Id, o: LedgerOrder, day: int)
    ensures AcceptedOn(d + [(id, o)], day) == AcceptedOn(d, day) + if AcceptedBuy(o, day) then {id} else {}
  {
    var e := d + [(id, o)];
    forall k ensures k in AcceptedOn(e, day) <==> k in AcceptedOn(d, day) || (AcceptedBuy(o, day) && k == id) {
      if i :| 0 <= i < |e| && AcceptedBuy(e[i].1, day) && e[i].0 == k {
        if i < |d| { assert AcceptedBuy(d[i].1, day) && d[i].0 == k; }
      }
      if i :| 0 <= i < |d| && AcceptedBuy(d[i].1, day) && d[i].0 == k { assert e[i] == d[i]; }
      if AcceptedBuy(o, day) && k == id { assert e[|d|] == (id, o); }
    }
  }

  lemma {:induction false} AppendPending(d: Dict<Id, LedgerOrder>, id: Id, o: LedgerOrder)
    ensures PendingInstruments(d + [(id, o)]) <= PendingInstruments(d) + if PendingBuy(o) then {o.published.contract.instrument} else {}
  {
    var e := d + [(id, o)];
    forall i | i in PendingInstruments(e)
      ensures i in PendingInstruments(d) || (PendingBuy(o) && i == o.published.contract.instrument)
    {
      PendingExactly(e, i);
      var k :| 0 <= k < |e| && PendingBuy(e[k].1) && e[k].1.published.contract.instrument == i;
      if k < |d| {
        assert PendingBuy(d[k].1);
        PendingExactly(d, i);
      }
    }
  }

  /** A submission that is not a repetition appends its order. */
  lemma SubmitAppends(cfg: Config, s: Ledger, c: Command, contract: Contract, now: Instant)
    requires forall i :: 0 <= i < |s.orders| ==> s.orders[i].0 in s.orderByKey
    requires c.orderIntentId == c.idempotencyKey
    requires CommandFault(cfg, s, c, contract).None? && Duplicate(s, c).None?
    ensures var t := Submit(cfg, s, c, contract, now).ledger;
      var accepted := SubmitReasons(s, c, contract, now) == [];
      && t.orders == s.orders + [(c.orderIntentId, LedgerOrder(NewOrder(cfg, c, contract, accepted, now), c))]
      && t.orderByKey == s.orderByKey[c.orderIntentId := c.orderIntentId]
      && t.positions == s.positions
      && (forall day: int :: EntriesOn(s, day) <= EntriesOn(t, day))
      && (accepted && c.side.BuyToOpen? ==> c.orderIntentId in EntriesOn(t, now.day))
  {
    GetAt(s.orders, c.orderIntentId);
    PutShape(s.orders, c.orderIntentId, LedgerOrder(NewOrder(cfg, c, contract, SubmitReasons(s, c, contract, now) == [], now), c));
  }

  /** What a submission adds to the open instruments and to the day's accepted buys. */
  lemma SubmitGrows(cfg: Config, s: Ledger, c: Command, contract: Contract, now: Instant)
    requires Recorded(s) && c.orderIntentId == c.idempotencyKey
    ensures var t := Submit(cfg, s, c, contract, now).ledger; var buy := c.side.BuyToOpen?;
      && Recorded(t)
      && OpenInstruments(t) <= OpenInstruments(s) + (if buy then {contract.instrument} else {})
      && (forall day: int :: AcceptedOn(t.orders, day) <=
            AcceptedOn(s.orders, day) + (if buy && day == now.day then {c.orderIntentId} else {}))
  {
    if CommandFault(cfg, s, c, contract).None? && Duplicate(s, c).None? {
      SubmitAppends(cfg, s, c, contract, now);
      var o := LedgerOrder(NewOrder(cfg, c, contract, SubmitReasons(s, c, contract, now) == [], now), c);
      AppendPending(s.orders, c.orderIntentId, o);
      SubmitAccepts(cfg, s, c, contract, now);
    }
  }

  /** A new submission adds itself to the accepted buys of its day, and to no other. */
  lemma SubmitAccepts(cfg: Config, s: Ledger, c: Command, contract: Contract, now: Instant)
    requires Recorded(s) && c.orderIntentId == c.idempotencyKey
    requires CommandFault(cfg, s, c, contract).None? && Duplicate(s, c).None?
    ensures var t := Submit(cfg, s, c, contract, now).ledger;
      && Recorded(t)
      && forall day: int :: AcceptedOn(t.orders, day) <=
            AcceptedOn(s.orders, day) + (if c.side.BuyToOpen? && day == now.day then {c.orderIntentId} else {})
  {
    var t, accepted := Submit(cfg, s, c, contract, now).ledger, SubmitReasons(s, c, contract, now) == [];
    SubmitAppends(cfg, s, c, contract, now);
    AppendDays(s, t, c.orderIntentId, LedgerOrder(NewOrder(cfg, c, contract, accepted, now), c), accepted && c.side.BuyToOpen?, now.day);
  }

  /** Appending an order adds at most itself to the accepted buys, on one day. */
  lemma AppendDays(s: Ledger, t: Ledger, id: Id, o: LedgerOrder, buy: bool, today: int)
    requires Recorded(s) && t.orders == s.orders + [(id, o)] && t.orderByKey == s.orderByKey[id := id]
    requires forall day: int :: AcceptedBuy(o, day) <==> buy && day == today
    requires (forall day: int :: EntriesOn(s, day) <= EntriesOn(t, day)) && (buy ==> id in EntriesOn(t, today))
    ensures Recorded(t) && forall day: int :: AcceptedOn(t.orders, day) == AcceptedOn(s.orders, day) + if buy && day == today then {id} else {}
  {
    forall day: int
      ensures AcceptedOn(t.orders, day) == AcceptedOn(s.orders, day) + if buy && day == today then {id} else {}
      ensures AcceptedOn(s.orders, day) <= EntriesOn(s, day) <= EntriesOn(t, day)
    {
      AppendAccepted(s.orders, id, o, day);
    }
  }

  /** Adding at most what was judged to a ledger the snapshot still bounds stays in the limits,
      although the market date may have changed since the snapshot. */
  lemma LimitsGrow(listing: Listing, rc: RiskConfig, s: Ledger, t: Ledger, j: Judgement, id: Id, now: Instant)
    requires LimitsHold(rc, s) && StillBounds(listing, s, j) && NotBefore(now, j.at)
    requires j.proposal.side.BuyToOpen? ==> WithinLimits(rc, j.proposal, j.account)
    requires OpenOptionRisk(t) <= OpenOptionRisk(s) + if j.proposal.side.BuyToOpen? then j.proposal.MaxLoss() else 0.0
    requires OpenInstruments(t) <= OpenInstruments(s) + (if j.proposal.side.BuyToOpen? then {j.proposal.contract.instrument} else {})
    requires forall day: int :: AcceptedOn(t.orders, day) <=
               AcceptedOn(s.orders, day) + (if j.proposal.side.BuyToOpen? && day == now.day then {id} else {})
    ensures LimitsHold(rc, t)
  {
    var buy := j.proposal.side.BuyToOpen?;
    SmallerSet(OpenInstruments(t), OpenInstruments(s) + (if buy then {j.proposal.contract.instrument} else {}));
    forall day: int | rc.dailyEnabled ensures |AcceptedOn(t.orders, day)| <= rc.maxEntries {
      var more := if buy && day == now.day then {id} else {};
      SmallerSet(AcceptedOn(t.orders, day), AcceptedOn(s.orders, day) + more);
      assert |AcceptedOn(s.orders, day) + more| <= |AcceptedOn(s.orders, day)| + |more|;
    }
  }

  lemma DeliverKeeps(cfg: Config, listing: Listing, rc: RiskConfig, x: System, now: Instant)
    requires SystemInv(cfg, listing, rc, x, now) && x.phase.Sent?
    ensures SystemInv(cfg, listing, rc, Step(cfg, rc, x, Moment(Deliver, now)), now)
  {
    DeliveredHolds(cfg, listing, rc, x.ledger, x.phase.j, x.phase.command, now);
  }

  lemma DeliveredHolds(cfg: Config, listing: Listing, rc: RiskConfig, s: Ledger, j: Judgement, c: Command, now: Instant)
    requires Inv(cfg, listing, s, now) && Recorded(s) && LimitsHold(rc, s) && StillBounds(listing, s, j) && NotBefore(now, j.at)
    requires Matches(j.proposal, c) && (j.proposal.side.BuyToOpen? ==> WithinLimits(rc, j.proposal, j.account))
    ensures var t := Submit(cfg, s, c, j.proposal.contract, now).ledger;
      Inv(cfg, listing, t, now) && Recorded(t) && LimitsHold(rc, t)
  {
    SubmitKeeps(cfg, listing, s, c, j.proposal.contract, now);
    SubmitGrows(cfg, s, c, j.proposal.contract, now);
    LimitsGrow(listing, rc, s, Submit(cfg, s, c, j.proposal.contract, now).ledger, j, c.orderIntentId, now);
  }

  lemma StepHolds(cfg: Config, listing: Listing, rc: RiskConfig, x: System, m: Moment)
    requires SystemInv(cfg, listing, rc, x, m.now) && EventListed(listing, m.event)
    ensures SystemInv(cfg, listing, rc, Step(cfg, rc, x, m), m.now)
  {
    match m.event
    case Other(op) => if !op.OpSubmit? { OtherKeeps(cfg, listing, rc, x, op, m.now); }
    case Judge(p, q) => JudgeKeeps(cfg, listing, rc, x, p, q, m.now);
    case Gate(c) =>
      if x.phase.Judged? {
        AllowedExactly(rc, x.phase.j.proposal, x.phase.j.account, x.phase.j.quote, m.now.t);
      }
    case Deliver => if x.phase.Sent? { DeliverKeeps(cfg, listing, rc, x, m.now); }
    case Release =>
  }

  function RunSystem(cfg: Config, rc: RiskConfig, x: System, moments: seq<Moment>): System {
    if moments == [] then x
    else Step(cfg, rc, RunSystem(cfg, rc, x, moments[..|moments| - 1]), moments[|moments| - 1])
  }

  ghost predicate InOrder(start: Instant, moments: seq<Moment>) {
    && (forall i :: 0 <= i < |moments| ==> NotBefore(moments[i].now, start))
    && (forall i, j :: 0 <= i < j < |moments| ==> NotBefore(moments[j].now, moments[i].now))
  }

  function LastOf(start: Instant, moments: seq<Moment>): Instant {
    if moments == [] then start else moments[|moments| - 1].now
  }

  lemma SystemLater(cfg: Config, listing: Listing, rc: RiskConfig, x: System, now: Instant, later: Instant)
    requires SystemInv(cfg, listing, rc, x, now) && NotBefore(later, now)
    ensures SystemInv(cfg, listing, rc, x, later)
  {
    InvLater(cfg, listing, x.ledger, now, later);
  }

  /** In every run, whatever falls between judgement and delivery: the ledger's open option risk
      and its open instruments never exceed the configured maxima, and the buys accepted on any
      market date never exceed the daily maximum. */
  lemma {:induction false} LimitsAlwaysHold(cfg: Config, listing: Listing, rc: RiskConfig, start: Instant, moments: seq<Moment>)
    requires InOrder(start, moments)
    requires forall i :: 0 <= i < |moments| ==> EventListed(listing, moments[i].event)
    ensures var x := RunSystem(cfg, rc, System(Fresh(cfg), Free), moments);
      SystemInv(cfg, listing, rc, x, LastOf(start, moments)) && LimitsHold(rc, x.ledger)
    decreases |moments|
  {
    if moments == [] {
      FreshInv(cfg, listing, start);
      forall day: int ensures AcceptedOn(Fresh(cfg).orders, day) == {} {}
    } else {
      var n := |moments| - 1;
      LimitsAlwaysHold(cfg, listing, rc, start, moments[..n]);
      var x := RunSystem(cfg, rc, System(Fresh(cfg), Free), moments[..n]);
      SystemLater(cfg, listing, rc, x, LastOf(start, moments[..n]), moments[n].now);
      StepHolds(cfg, listing, rc, x, moments[n]);
    }
  }
}
