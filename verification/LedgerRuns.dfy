/** Runs of the shadow ledger: any sequence of calls at any non-decreasing times. */
module LedgerRuns {
  import opened Dicts
  import opened Domain
  import opened FillModels
  import opened LedgerState
  import opened LedgerInvariant

  datatype Op =
    | OpDeposit(amount: real, reference: string)
    | OpReview(proposal: Proposal)
    | OpSubmit(command: Command, contract: Contract)
    | OpCancel(command: Command, target: Id)
    | OpQuote(quote: Quote)
    | OpExpire(onDate: Option<int>, policy: Policy, prices: map<Id, real>)

  datatype Reply =
    | Refused(fault: Fault)
    | Deposited(deposit: Deposit)
    | Advised(warnings: seq<Warning>)
    | Ordered(order: BrokerOrder)
    | Traded(fills: seq<Fill>)
    | Settled(expiration: Expiration)

  datatype Call = Call(op: Op, now: Instant)

  function ReplyOf<T>(r: Result<T, Fault>, wrap: T -> Reply): Reply {
    match r case Ok(v) => wrap(v) case Err(f) => Refused(f)
  }

  function Apply(cfg: Config, s: Ledger, call: Call): (Ledger, Reply) {
    var now := call.now;
    match call.op
    case OpDeposit(amount, reference) =>
      var r := DepositCash(s, amount, reference, now); (r.ledger, ReplyOf(r.result, x => Deposited(x)))
    case OpReview(p) =>
      var r := ReviewProposal(cfg, s, p, now); (r.ledger, ReplyOf(r.result, x => Advised(x)))
    case OpSubmit(c, contract) =>
      var r := Submit(cfg, s, c, contract, now); (r.ledger, ReplyOf(r.result, x => Ordered(x)))
    case OpCancel(c, target) =>
      var r := Cancel(cfg, s, c, target); (r.ledger, ReplyOf(r.result, x => Ordered(x)))
    case OpQuote(q) =>
      var r := ObserveQuote(cfg, s, q, now); (r.ledger, ReplyOf(r.result, x => Traded(x)))
    case OpExpire(onDate, policy, prices) =>
      var r := Expire(s, onDate, policy, prices, now); (r.ledger, ReplyOf(r.result, x => Settled(x)))
  }

  /** The one thing callers must respect: an instrument id stands for one listed contract. */
  ghost predicate OpListed(listing: Listing, op: Op) {
    (op.OpSubmit? ==> Listed(listing, op.contract)) && (op.OpQuote? ==> Listed(listing, op.quote.contract))
  }

  ghost predicate Unguarded(r: Reply) {
    r.Refused? ==> !r.fault.IsGuard()
  }

  /** The state and the replies after a sequence of calls. */
  function RunFrom(cfg: Config, s: Ledger, calls: seq<Call>): (Ledger, seq<Reply>) {
    if calls == [] then (s, [])
    else
      var before := RunFrom(cfg, s, calls[..|calls| - 1]);
      var last := Apply(cfg, before.0, calls[|calls| - 1]);
      (last.0, before.1 + [last.1])
  }

  ghost predicate Timely(start: Instant, calls: seq<Call>) {
    && (forall i :: 0 <= i < |calls| ==> NotBefore(calls[i].now, start))
    && (forall i, j :: 0 <= i < j < |calls| ==> NotBefore(calls[j].now, calls[i].now))
  }

  ghost predicate CallsListed(listing: Listing, calls: seq<Call>) {
    forall i :: 0 <= i < |calls| ==> OpListed(listing, calls[i].op)
  }

  function EndOf(start: Instant, calls: seq<Call>): Instant {
    if calls == [] then start else calls[|calls| - 1].now
  }

  // ---- each operation -----------------------------------------------------------------------

  lemma DepositKeeps(cfg: Config, listing: Listing, s: Ledger, amount: real, reference: string, now: Instant)
    requires Inv(cfg, listing, s, now)
    ensures Inv(cfg, listing, DepositCash(s, amount, reference, now).ledger, now)
  {
    if amount > 0.0 {
      var t := DepositCash(s, amount, reference, now).ledger;
      assert t.deposits[..|t.deposits| - 1] == s.deposits;
      SameBooks(s, t);
    }
  }

  lemma ReviewKeeps(cfg: Config, listing: Listing, s: Ledger, p: Proposal, now: Instant)
    requires Inv(cfg, listing, s, now)
    ensures Inv(cfg, listing, ReviewProposal(cfg, s, p, now).ledger, now)
  {
    PutShape(s.proposals, p.proposalId, p);
    SameBooks(s, ReviewProposal(cfg, s, p, now).ledger);
  }

  lemma NewOrderOk(cfg: Config, listing: Listing, s: Ledger, c: Command, contract: Contract, accepted: bool, now: Instant)
    requires CommandFault(cfg, s, c, contract).None? && Listed(listing, contract)
    ensures OrderOk(cfg, listing, c.orderIntentId, LedgerOrder(NewOrder(cfg, c, contract, accepted, now), c), now)
  {
  }

  /** An order may be written wherever its reservation is free. */
  lemma {:induction false} WriteOrder(cfg: Config, listing: Listing, s: Ledger, id: Id, o: LedgerOrder, now: Instant)
    requires Inv(cfg, listing, s, now) && OrderOk(cfg, listing, id, o, now)
    requires BuyReserve(o) <= BuyingPower(s)
    requires forall i: Id :: SellReserve(i)(o) <= AvailableQuantity(s, i)
    ensures var t := s.(orders := Put(s.orders, id, o));
      && Inv(cfg, listing, t, now) && Has(t.orders, id)
      && OpenOptionRisk(t) <= OpenOptionRisk(s) + BuyReserve(o)
  {
    PutOrder(cfg, listing, s.orders, id, o, now);
    var t := s.(orders := Put(s.orders, id, o));
    forall i: Id ensures AvailableQuantity(t, i) >= 0 { assert AvailableQuantity(s, i) >= SellReserve(i)(o); }
  }

  /** The tables that only name orders and dates do not matter to the invariant. */
  lemma Relabel(cfg: Config, listing: Listing, s: Ledger, t: Ledger, key: Id, id: Id, now: Instant)
    requires Inv(cfg, listing, s, now) && Has(s.orders, id)
    requires t == s.(orderByKey := s.orderByKey[key := id], rejections := t.rejections, entries := t.entries)
    ensures Inv(cfg, listing, t, now) && OpenOptionRisk(t) == OpenOptionRisk(s)
  {
    SameBooks(s, t);
  }

  lemma AcceptedFits(cfg: Config, listing: Listing, s: Ledger, c: Command, contract: Contract, now: Instant)
    requires Inv(cfg, listing, s, now) && CommandFault(cfg, s, c, contract).None?
    ensures var reasons := SubmitReasons(s, c, contract, now);
      var o := LedgerOrder(NewOrder(cfg, c, contract, reasons == [], now), c);
      && BuyReserve(o) <= BuyingPower(s)
      && (forall i: Id :: SellReserve(i)(o) <= AvailableQuantity(s, i))
      && (BuyReserve(o) == if reasons == [] && c.side.BuyToOpen? then Value(c.limit, c.quantity, contract.multiplier) else 0.0)
  {
    forall i: Id ensures AvailableQuantity(s, i) >= 0 {}
  }

  lemma SubmitKeeps(cfg: Config, listing: Listing, s: Ledger, c: Command, contract: Contract, now: Instant)
    requires Inv(cfg, listing, s, now) && Listed(listing, contract)
    ensures var r := Submit(cfg, s, c, contract, now);
      && Inv(cfg, listing, r.ledger, now) && (r.result.Err? ==> !r.result.error.IsGuard())
      && OpenOptionRisk(r.ledger) <= OpenOptionRisk(s) + if c.side.BuyToOpen? then Value(c.limit, c.quantity, contract.multiplier) else 0.0
  {
    ValueSign(c.limit, c.quantity, contract.multiplier);
    if CommandFault(cfg, s, c, contract).None? && Duplicate(s, c).None? {
      var reasons := SubmitReasons(s, c, contract, now);
      var o := LedgerOrder(NewOrder(cfg, c, contract, reasons == [], now), c);
      NewOrderOk(cfg, listing, s, c, contract, reasons == [], now);
      AcceptedFits(cfg, listing, s, c, contract, now);
      WriteOrder(cfg, listing, s, c.orderIntentId, o, now);
      Relabel(cfg, listing, s.(orders := Put(s.orders, c.orderIntentId, o)), Submit(cfg, s, c, contract, now).ledger,
              c.idempotencyKey, c.orderIntentId, now);
    }
  }

  lemma CancelKeeps(cfg: Config, listing: Listing, s: Ledger, c: Command, target: Id, now: Instant)
    requires Inv(cfg, listing, s, now)
    ensures var r := Cancel(cfg, s, c, target);
      Inv(cfg, listing, r.ledger, now) && (r.result.Err? ==> !r.result.error.IsGuard())
      && OpenOptionRisk(r.ledger) <= OpenOptionRisk(s)
  {
    OrderFacts(cfg, listing, s.orders, target, now);
    if c.action.CancelOptionOrder? && c.environment == cfg.environment && Duplicate(s, c).None? && Has(s.orders, target)
       && c.instrument == Get(s.orders, target).value.published.contract.instrument {
      var o := Get(s.orders, target).value;
      if IsTerminal(o.published.state) {
        Relabel(cfg, listing, s, Cancel(cfg, s, c, target).ledger, c.idempotencyKey, target, now);
      } else {
        var canceled := o.(published := o.published.(state := Canceled));
        assert forall i: Id :: AvailableQuantity(s, i) >= SellReserve(i)(canceled);
        WriteOrder(cfg, listing, s, target, canceled, now);
        Relabel(cfg, listing, s.(orders := Put(s.orders, target, canceled)), Cancel(cfg, s, c, target).ledger,
                c.idempotencyKey, target, now);
      }
    }
  }

  /** What the fill model decides about the rest of an order. */
  function Decided(cfg: Config, o: LedgerOrder, q: Quote): FillDecision {
    Evaluate(cfg.model, o.published, q, o.published.quantity - o.published.filled)
  }

  predicate Offered(cfg: Config, o: LedgerOrder, q: Quote) {
    Eligible(o.published, q) && Decided(cfg, o, q).ShouldFill()
  }

  /** A pass over one order is one fill or nothing. */
  lemma {:induction false} FillOneOffers(cfg: Config, s: Ledger, q: Quote, id: Id, now: Instant)
    ensures var one := FillOne(cfg, s, q, id, now);
      if Has(s.orders, id) && Offered(cfg, Get(s.orders, id).value, q) then
        var o := Get(s.orders, id).value; var r := ApplyFill(cfg, s, o, q, Decided(cfg, o, q), now);
        one.ledger == r.ledger && (one.result.Ok? <==> r.result.Ok?)
      else one == Outcome(s, Ok([]))
  {
    if Has(s.orders, id) && Eligible(Get(s.orders, id).value.published, q) {
      var o := Get(s.orders, id).value;
      assert Decided(cfg, o, q) == Evaluate(cfg.model, o.published, q, o.published.quantity - o.published.filled);
    }
  }

  lemma {:induction false} OfferWorkable(cfg: Config, listing: Listing, s: Ledger, q: Quote, id: Id, now: Instant)
    requires Inv(cfg, listing, s, now) && Has(s.orders, id) && Offered(cfg, Get(s.orders, id).value, q)
    ensures var o := Get(s.orders, id).value; Workable(cfg, listing, s, o, q, Decided(cfg, o, q), now)
  {
    var p := Get(s.orders, id).value.published;
    OrderFacts(cfg, listing, s.orders, id, now);
    EvaluateSound(cfg.model, p, q, p.quantity - p.filled);
  }

  lemma FillOneKeeps(cfg: Config, listing: Listing, s: Ledger, q: Quote, id: Id, now: Instant)
    requires Inv(cfg, listing, s, now)
    ensures var r := FillOne(cfg, s, q, id, now);
      r.result.Ok? && Inv(cfg, listing, r.ledger, now) && OpenOptionRisk(r.ledger) <= OpenOptionRisk(s)
  {
    FillOneOffers(cfg, s, q, id, now);
    if Has(s.orders, id) && Offered(cfg, Get(s.orders, id).value, q) {
      var o := Get(s.orders, id).value;
      OfferWorkable(cfg, listing, s, q, id, now);
      FillKeeps(cfg, listing, s, o, q, Decided(cfg, o, q), now);
    }
  }

  /** A pass over the orders with one quote keeps the invariant, meets no guard, and never adds
      to the open option risk. */
  lemma {:induction false} FillAllKeeps(cfg: Config, listing: Listing, s: Ledger, q: Quote, ids: seq<Id>, produced: seq<Fill>, now: Instant)
    requires Inv(cfg, listing, s, now)
    ensures var r := FillAll(cfg, s, q, ids, produced, now);
      r.result.Ok? && Inv(cfg, listing, r.ledger, now) && OpenOptionRisk(r.ledger) <= OpenOptionRisk(s)
    decreases |ids|
  {
    if ids != [] {
      FillOneKeeps(cfg, listing, s, q, ids[0], now);
      var one := FillOne(cfg, s, q, ids[0], now);
      FillAllKeeps(cfg, listing, one.ledger, q, ids[1..], produced + one.result.value, now);
    }
  }

  lemma {:induction false} QuoteSeen(cfg: Config, listing: Listing, s: Ledger, q: Quote, now: Instant)
    requires Inv(cfg, listing, s, now) && Listed(listing, q.contract) && QuoteFault(s, q, now).None?
    ensures var t := MarkPosition(s.(quotes := Put(s.quotes, q.contract.instrument, q)), q);
      Inv(cfg, listing, t, now) && OpenOptionRisk(t) == OpenOptionRisk(s)
  {
    var u := s.(quotes := Put(s.quotes, q.contract.instrument, q));
    PutShape(s.quotes, q.contract.instrument, q);
    MarkKeeps(cfg, listing, u, q);
    var t := MarkPosition(u, q);
    forall i: Id ensures AvailableQuantity(t, i) >= 0 { assert AvailableQuantity(s, i) >= 0; }
  }

  lemma QuoteKeeps(cfg: Config, listing: Listing, s: Ledger, q: Quote, now: Instant)
    requires Inv(cfg, listing, s, now) && Listed(listing, q.contract)
    ensures var r := ObserveQuote(cfg, s, q, now);
      Inv(cfg, listing, r.ledger, now) && (r.result.Err? ==> !r.result.error.IsGuard())
      && OpenOptionRisk(r.ledger) <= OpenOptionRisk(s)
  {
    if QuoteFault(s, q, now).None? && !QuoteRepeated(s, q) {
      QuoteSeen(cfg, listing, s, q, now);
      var t := MarkPosition(s.(quotes := Put(s.quotes, q.contract.instrument, q)), q);
      FillAllKeeps(cfg, listing, t, q, KeysOf(t.orders), [], now);
    }
  }

  // ---- expiration ---------------------------------------------------------------------------

  lemma {:induction false} GetExpired(d: Dict<Id, LedgerOrder>, date: int, j: Id)
    ensures Get(ExpireOrders(d, date), j) ==
      match Get(d, j) case None => None case Some(o) => Some(ExpireOrder(o, date))
  {
    if d != [] {
      assert ExpireOrders(d, date)[1..] == ExpireOrders(d[1..], date);
      GetExpired(d[1..], date, j);
    }
  }

  /** Once the due orders are expired, nothing is reserved to sell an instrument that is due. */
  ghost predicate DueIsFree(listing: Listing, s: Ledger, date: int) {
    forall i: Id :: i in listing && listing[i].expiration <= date ==> Count(SellReserve(i), s.orders) == 0
  }

  lemma ExpiredOrdersOk(cfg: Config, listing: Listing, d: Dict<Id, LedgerOrder>, date: int, now: Instant)
    requires OrdersOk(cfg, listing, d, now)
    ensures OrdersOk(cfg, listing, ExpireOrders(d, date), now)
  {
    var e := ExpireOrders(d, date);
    forall k | 0 <= k < |e| ensures OrderOk(cfg, listing, e[k].0, e[k].1, now) {
      assert OrderOk(cfg, listing, d[k].0, d[k].1, now);
    }
  }

  lemma {:induction false} ExpiredReserves(cfg: Config, listing: Listing, d: Dict<Id, LedgerOrder>, date: int, i: Id, now: Instant)
    requires OrdersOk(cfg, listing, d, now)
    ensures var e := ExpireOrders(d, date);
      && Sum(BuyReserve, e) <= Sum(BuyReserve, d) && Count(SellReserve(i), e) <= Count(SellReserve(i), d)
      && (i in listing && listing[i].expiration <= date ==> Count(SellReserve(i), e) == 0)
  {
    var e := ExpireOrders(d, date);
    forall k | 0 <= k < |e|
      ensures BuyReserve(e[k].1) <= BuyReserve(d[k].1) && SellReserve(i)(e[k].1) <= SellReserve(i)(d[k].1)
    {
      ReserveNonNegative(cfg, listing, d[k].1, d[k].0, now, i);
    }
    SumMonotone(BuyReserve, e, d);
    CountMonotone(SellReserve(i), e, d);
    if i in listing && listing[i].expiration <= date {
      forall k | 0 <= k < |e| ensures SellReserve(i)(e[k].1) == 0 {
        assert OrderOk(cfg, listing, d[k].0, d[k].1, now);
      }
      CountZero(SellReserve(i), e);
    }
  }

  lemma ExpireOrdersKeeps(cfg: Config, listing: Listing, s: Ledger, date: int, now: Instant)
    requires Inv(cfg, listing, s, now)
    ensures var t := s.(orders := ExpireOrders(s.orders, date));
      Inv(cfg, listing, t, now) && DueIsFree(listing, t, date) && OpenOptionRisk(t) <= OpenOptionRisk(s)
  {
    var e := ExpireOrders(s.orders, date);
    var t := s.(orders := e);
    ExpiredOrdersOk(cfg, listing, s.orders, date, now);
    ExpiredReserves(cfg, listing, s.orders, date, 0, now);
    forall i: Id
      ensures AvailableQuantity(t, i) >= 0
      ensures i in listing && listing[i].expiration <= date ==> Count(SellReserve(i), e) == 0
    {
      assert AvailableQuantity(s, i) >= 0;
      ExpiredReserves(cfg, listing, s.orders, date, i, now);
    }
    forall j: Id ensures Has(e, j) <==> Has(s.orders, j) { GetExpired(s.orders, date, j); }
  }

  lemma {:induction false} PositionSettles(cfg: Config, listing: Listing, s: Ledger, id: Id, price: real, date: int, now: Instant)
    requires Inv(cfg, listing, s, now) && DueIsFree(listing, s, date)
    requires Has(s.positions, id) && Get(s.positions, id).value.contract.expiration <= date && price >= 0.0
    ensures var t := SettlePosition(s, id, price);
      Inv(cfg, listing, t, now) && DueIsFree(listing, t, date) && OpenOptionRisk(t) <= OpenOptionRisk(s)
  {
    PositionFacts(cfg, listing, s.positions, id);
    var p := Get(s.positions, id).value;
    var m := p.contract.multiplier;
    var paid := s.(cash := s.cash + Value(price, p.quantity, m));
    var pnl := Unrealized(price, p.average, p.quantity, m);
    ValueSign(price, p.quantity, m);
    ExitAll(cfg, listing, paid, id, price);
    var t := ClosePosition(paid, id, p, pnl);
    forall i: Id ensures AvailableQuantity(t, i) >= 0 { assert AvailableQuantity(s, i) >= 0; }
  }

  lemma SettleOneKeeps(cfg: Config, listing: Listing, s: Ledger, id: Id, date: int, policy: Policy,
                       prices: map<Id, real>, done: Expiration, now: Instant)
    requires Inv(cfg, listing, s, now) && DueIsFree(listing, s, date)
    ensures var r := SettleOne(s, id, date, policy, prices, done);
      Inv(cfg, listing, r.ledger, now) && DueIsFree(listing, r.ledger, date)
      && (r.result.Err? ==> !r.result.error.IsGuard()) && OpenOptionRisk(r.ledger) <= OpenOptionRisk(s)
  {
    if Has(s.positions, id) && Get(s.positions, id).value.contract.expiration <= date && SettlementPrice(id, policy, prices).Some? {
      PositionSettles(cfg, listing, s, id, SettlementPrice(id, policy, prices).value, date, now);
    }
  }

  /** Settling keeps the invariant after every position, also when a bad price stops it. */
  lemma {:induction false} SettleKeeps(cfg: Config, listing: Listing, s: Ledger, ids: seq<Id>, date: int, policy: Policy,
                                       prices: map<Id, real>, done: Expiration, now: Instant)
    requires Inv(cfg, listing, s, now) && DueIsFree(listing, s, date)
    ensures var r := SettleAll(s, ids, date, policy, prices, done);
      Inv(cfg, listing, r.ledger, now) && (r.result.Err? ==> !r.result.error.IsGuard())
      && OpenOptionRisk(r.ledger) <= OpenOptionRisk(s)
    decreases |ids|
  {
    if ids != [] {
      SettleOneKeeps(cfg, listing, s, ids[0], date, policy, prices, done, now);
      var one := SettleOne(s, ids[0], date, policy, prices, done);
      if one.result.Ok? { SettleKeeps(cfg, listing, one.ledger, ids[1..], date, policy, prices, one.result.value, now); }
    }
  }

  lemma ExpireKeeps(cfg: Config, listing: Listing, s: Ledger, onDate: Option<int>, policy: Policy, prices: map<Id, real>, now: Instant)
    requires Inv(cfg, listing, s, now)
    ensures var r := Expire(s, onDate, policy, prices, now);
      Inv(cfg, listing, r.ledger, now) && (r.result.Err? ==> !r.result.error.IsGuard())
      && OpenOptionRisk(r.ledger) <= OpenOptionRisk(s)
  {
    var date := match onDate case None => now.day case Some(d) => d;
    if date <= now.day {
      ExpireOrdersKeeps(cfg, listing, s, date, now);
      SettleKeeps(cfg, listing, s.(orders := ExpireOrders(s.orders, date)), KeysOf(s.positions), date, policy, prices,
                  Expiration(now.t, date, ExpiredIds(s.orders, date), [], 0.0, 0.0, policy), now);
    }
  }

  // ---- runs ---------------------------------------------------------------------------------

  /** One call of any kind keeps the invariant and never ends in one of the ledger's own guards. */
  lemma StepKeeps(cfg: Config, listing: Listing, s: Ledger, call: Call)
    requires Inv(cfg, listing, s, call.now) && OpListed(listing, call.op)
    ensures Inv(cfg, listing, Apply(cfg, s, call).0, call.now) && Unguarded(Apply(cfg, s, call).1)
    ensures !call.op.OpSubmit? ==> OpenOptionRisk(Apply(cfg, s, call).0) <= OpenOptionRisk(s)
  {
    match call.op
    case OpSubmit(c, contract) => SubmitKeeps(cfg, listing, s, c, contract, call.now);
    case OpCancel(c, target) => CancelKeeps(cfg, listing, s, c, target, call.now);
    case OpQuote(q) => QuoteKeeps(cfg, listing, s, q, call.now);
    case OpExpire(onDate, policy, prices) => ExpireKeeps(cfg, listing, s, onDate, policy, prices, call.now);
    case _ => AdviceKeeps(cfg, listing, s, call);
  }

  lemma AdviceKeeps(cfg: Config, listing: Listing, s: Ledger, call: Call)
    requires Inv(cfg, listing, s, call.now) && (call.op.OpDeposit? || call.op.OpReview?)
    ensures Inv(cfg, listing, Apply(cfg, s, call).0, call.now) && Unguarded(Apply(cfg, s, call).1)
    ensures OpenOptionRisk(Apply(cfg, s, call).0) == OpenOptionRisk(s)
  {
    match call.op
    case OpDeposit(amount, reference) => DepositKeeps(cfg, listing, s, amount, reference, call.now);
    case OpReview(p) => ReviewKeeps(cfg, listing, s, p, call.now);
  }

  /** Over every run from a fresh ledger the books balance, nothing goes negative, and the guards
      in the fill path are never reached, with either fill model. */
  lemma {:induction false} RunsAreSafe(cfg: Config, listing: Listing, start: Instant, calls: seq<Call>)
    requires Timely(start, calls) && CallsListed(listing, calls)
    ensures Inv(cfg, listing, RunFrom(cfg, Fresh(cfg), calls).0, EndOf(start, calls))
    ensures forall r :: r in RunFrom(cfg, Fresh(cfg), calls).1 ==> Unguarded(r)
    decreases |calls|
  {
    if calls == [] {
      FreshInv(cfg, listing, start);
    } else {
      var n := |calls| - 1;
      RunsAreSafe(cfg, listing, start, calls[..n]);
      var before := RunFrom(cfg, Fresh(cfg), calls[..n]).0;
      InvLater(cfg, listing, before, EndOf(start, calls[..n]), calls[n].now);
      StepKeeps(cfg, listing, before, calls[n]);
    }
  }

  /** The same, read out: after every run cash, buying power and every unreserved quantity are
      non-negative, and cash plus open cost equals what was paid in plus the realized result. */
  lemma {:induction false} RunsBalance(cfg: Config, listing: Listing, start: Instant, calls: seq<Call>, i: Id)
    requires Timely(start, calls) && CallsListed(listing, calls)
    ensures var s := RunFrom(cfg, Fresh(cfg), calls).0;
      && s.cash >= BuyingPower(s) >= 0.0 && AvailableQuantity(s, i) >= 0
      && s.cash + Sum(Cost, s.positions) == cfg.initialCash + DepositTotal(s.deposits) + s.realized
      && s.realized == Sum(Same, s.closed) + Sum(PositionPnl, s.positions)
  {
    RunsAreSafe(cfg, listing, start, calls);
    NothingNegative(cfg, listing, RunFrom(cfg, Fresh(cfg), calls).0, EndOf(start, calls), i);
  }
}
