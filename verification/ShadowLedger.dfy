/** The shadow ledger as the object it is: fields updated in place, one method per operation,
    each method leaving exactly the state and the result that `LedgerState` gives. */
module LedgerService {
  import opened Dicts
  import opened Domain
  import opened FillModels
  import opened LedgerState
  import opened LedgerInvariant
  import opened LedgerSnapshots

  class ShadowLedger {
    const cfg: Config
    var cash: real
    var orders: Dict<Id, LedgerOrder>
    var orderByKey: map<Id, Id>
    var positions: Dict<Id, Position>
    var fills: seq<Fill>
    var quotes: Dict<Id, Quote>
    var proposals: Dict<Id, Proposal>
    var rejections: map<Id, seq<Reason>>
    var deposits: seq<Deposit>
    var entries: map<int, set<Id>>
    var realized: real
    var closed: Dict<Id, real>

    function State(): Ledger
      reads this
    {
      Ledger(cash, orders, orderByKey, positions, fills, quotes, proposals, rejections, deposits, entries, realized, closed)
    }

    constructor (cfg: Config)
      ensures this.cfg == cfg && State() == Fresh(cfg)
    {
      this.cfg := cfg;
      cash, orders, orderByKey, positions, fills := cfg.initialCash, [], map[], [], [];
      quotes, proposals, rejections, deposits := [], [], map[], [];
      entries, realized, closed := map[], 0.0, [];
    }

    // ---- reservations: sums over the open orders --------------------------------------------

    method ReserveTotal() returns (total: real)
      ensures total == ReservedBuyingPower(State())
    {
      total := 0.0;
      for i := 0 to |orders|
        invariant total + Sum(BuyReserve, orders[i..]) == Sum(BuyReserve, orders)
      {
        var p := orders[i].1.published;
        if IsOpen(p.state) && p.side.BuyToOpen? {
          total := total + Value(p.limit, p.quantity - p.filled, p.contract.multiplier);
        }
        assert orders[i..][1..] == orders[i + 1..];
      }
    }

    method AvailableToClose(instrument: Id) returns (available: int)
      ensures available == AvailableQuantity(State(), instrument)
    {
      var reserved := 0;
      for i := 0 to |orders|
        invariant reserved + Count(SellReserve(instrument), orders[i..]) == Count(SellReserve(instrument), orders)
      {
        var p := orders[i].1.published;
        if IsOpen(p.state) && p.side.SellToClose? && p.contract.instrument == instrument {
          reserved := reserved + (p.quantity - p.filled);
        }
        assert orders[i..][1..] == orders[i + 1..];
      }
      available := Owned(State(), instrument) - reserved;
    }

    // ---- deposit, review, submit, cancel ----------------------------------------------------

    method DepositFunds(amount: real, reference: string, now: Instant) returns (r: Result<Deposit, Fault>)
      modifies this
      ensures Outcome(State(), r) == DepositCash(old(State()), amount, reference, now)
    {
      if amount <= 0.0 { return Err(NonPositiveDeposit); }
      var record := Deposit(amount, now.t, reference);
      cash := cash + amount;
      deposits := deposits + [record];
      return Ok(record);
    }

    method Capacity(proposal: Proposal) returns (warnings: seq<Warning>)
      ensures warnings == CapacityWarnings(State(), proposal)
    {
      if proposal.side.BuyToOpen? {
        var reserved := ReserveTotal();
        return if proposal.MaxLoss() > cash - reserved then [ReviewBuyingPower] else [];
      }
      var available := AvailableToClose(proposal.contract.instrument);
      return if proposal.quantity > available then [ReviewPosition] else [];
    }

    method Review(proposal: Proposal, now: Instant) returns (r: Result<seq<Warning>, Fault>)
      modifies this
      ensures Outcome(State(), r) == ReviewProposal(cfg, old(State()), proposal, now)
    {
      var capacity := Capacity(proposal);
      var warnings := BindingWarnings(cfg, proposal, now) + QuoteWarnings(cfg, State(), proposal, now) + capacity;
      proposals := Put(proposals, proposal.proposalId, proposal);
      return Ok(warnings);
    }

    method RefusalReasons(command: Command, contract: Contract, now: Instant) returns (reasons: seq<Reason>)
      ensures reasons == SubmitReasons(State(), command, contract, now)
    {
      reasons := if contract.expiration < now.day then [ContractExpired] else [];
      if command.side.BuyToOpen? {
        var reserved := ReserveTotal();
        reasons := reasons + (if Value(command.limit, command.quantity, contract.multiplier) > cash - reserved
                              then [InsufficientBuyingPower] else []);
      } else {
        var available := AvailableToClose(contract.instrument);
        reasons := reasons + (if command.quantity > available then [InsufficientPosition] else []);
      }
    }

    method SubmitOrder(command: Command, contract: Contract, now: Instant) returns (r: Result<BrokerOrder, Fault>)
      modifies this
      ensures Outcome(State(), r) == Submit(cfg, old(State()), command, contract, now)
    {
      var fault := CommandFault(cfg, State(), command, contract);
      if fault.Some? { return Err(fault.value); }
      var duplicate := Duplicate(State(), command);
      if duplicate.Some? { return duplicate.value; }
      var reasons := RefusalReasons(command, contract, now);
      var order := NewOrder(cfg, command, contract, reasons == [], now);
      orders := Put(orders, order.orderId, LedgerOrder(order, command));
      orderByKey := orderByKey[command.idempotencyKey := order.orderId];
      if reasons != [] {
        rejections := rejections[order.orderId := reasons];
      } else if command.side.BuyToOpen? {
        entries := entries[now.day := EntriesOn(State(), now.day) + {order.orderId}];
      }
      return Ok(order);
    }

    method CancelOrder(command: Command, target: Id) returns (r: Result<BrokerOrder, Fault>)
      modifies this
      ensures Outcome(State(), r) == Cancel(cfg, old(State()), command, target)
    {
      if command.action != CancelOptionOrder { return Err(WrongAction); }
      if command.environment != cfg.environment { return Err(WrongEnvironment); }
      var duplicate := Duplicate(State(), command);
      if duplicate.Some? { return duplicate.value; }
      var found := Get(orders, target);
      if found.None? { return Err(UnknownOrder); }
      var order := found.value.published;
      if command.instrument != order.contract.instrument { return Err(WrongInstrument); }
      if IsTerminal(order.state) {
        orderByKey := orderByKey[command.idempotencyKey := order.orderId];
        return Ok(order);
      }
      if !IsOpen(order.state) { return Err(NotCancelable); }
      var canceled := order.(state := Canceled);
      orders := Put(orders, order.orderId, found.value.(published := canceled));
      orderByKey := orderByKey[command.idempotencyKey := order.orderId];
      return Ok(canceled);
    }

    // ---- quotes and fills -------------------------------------------------------------------

    method Mark(quote: Quote)
      modifies this
      ensures State() == MarkPosition(old(State()), quote)
    {
      var at := quote.contract.instrument;
      var found := Get(positions, at);
      if found.Some? {
        var p := found.value;
        var u := Unrealized(quote.bid, p.average, p.quantity, p.contract.multiplier);
        positions := Put(positions, at, p.(bid := quote.bid, ask := quote.ask,
                                           best := Greatest(p.best, u), worst := Least(p.worst, u)));
      }
    }

    method EnterPosition(command: Command, contract: Contract, quote: Quote, quantity: int, price: real, now: Instant)
      modifies this
      ensures State() == ApplyEntry(cfg, old(State()), command, contract, quote, quantity, price, now)
    {
      var found := Get(positions, contract.instrument);
      if found.None? {
        positions := Put(positions, contract.instrument,
                         Opened(cfg, State(), command, contract, quote, quantity, price, now));
        return;
      }
      var p := found.value;
      positions := Put(positions, contract.instrument,
                       p.(quantity := p.quantity + quantity,
                          average := AverageUp(p.average, p.quantity, price, quantity),
                          bid := quote.bid, ask := quote.ask));
      Mark(quote);
    }

    method ExitPosition(contract: Contract, quantity: int, price: real) returns (done: bool)
      modifies this
      ensures done == ApplyExit(old(State()), contract, quantity, price).Some?
      ensures State() == if done then ApplyExit(old(State()), contract, quantity, price).value else old(State())
    {
      var found := Get(positions, contract.instrument);
      if found.None? || quantity > found.value.quantity { return false; }
      var p := found.value;
      var pnl := Unrealized(price, p.average, quantity, contract.multiplier);
      realized := realized + pnl;
      if p.quantity - quantity == 0 {
        closed := Put(closed, contract.instrument, ClosedSoFar(State(), contract.instrument) + p.realized + pnl);
        positions := Del(positions, contract.instrument);
      } else {
        positions := Put(positions, contract.instrument,
                         p.(quantity := p.quantity - quantity, realized := p.realized + pnl));
      }
      return true;
    }

    method Book(o: LedgerOrder, quote: Quote, quantity: int, price: real, now: Instant) returns (fault: Option<Fault>)
      modifies this
      ensures BookFill(cfg, old(State()), o, quote, quantity, price, now)
           == if fault.None? then Ok(State()) else Err(fault.value)
      ensures fault.Some? ==> State() == old(State())
    {
      var p := o.published;
      var notional := Notional(p, quantity, price);
      if p.side.BuyToOpen? {
        if notional > cash { return Some(CashNegative); }
        cash := cash - notional;
        EnterPosition(o.command, p.contract, quote, quantity, price, now);
        entries := entries[now.day := EntriesOn(State(), now.day) + {p.orderId}];
      } else {
        var done := ExitPosition(p.contract, quantity, price);
        if !done { return Some(Oversell); }
        cash := cash + notional;
      }
      return None;
    }

    method FillOrder(o: LedgerOrder, quote: Quote, d: FillDecision, now: Instant) returns (r: Result<Fill, Fault>)
      requires d.ShouldFill()
      modifies this
      ensures Outcome(State(), r) == ApplyFill(cfg, old(State()), o, quote, d, now)
    {
      var p, price := o.published, d.price.value;
      var guard := FillGuard(p, d.quantity, price);
      if guard.Some? { return Err(guard.value); }
      var fault := Book(o, quote, d.quantity, price, now);
      if fault.Some? { return Err(fault.value); }
      orders := Put(orders, p.orderId, o.(published := FilledBy(p, d.quantity, price)));
      var fill := Fill(|fills|, now.t, p.orderId, d.quantity, price, quote.snapshotId, cfg.modelVersion, d.seed, d.reason);
      fills := fills + [fill];
      return Ok(fill);
    }

    method Offer(quote: Quote, id: Id, now: Instant) returns (r: Result<seq<Fill>, Fault>)
      modifies this
      ensures Outcome(State(), r) == FillOne(cfg, old(State()), quote, id, now)
    {
      var found := Get(orders, id);
      if found.None? || !Eligible(found.value.published, quote) { return Ok([]); }
      var p := found.value.published;
      var d := Evaluate(cfg.model, p, quote, p.quantity - p.filled);
      if !d.ShouldFill() { return Ok([]); }
      var one := FillOrder(found.value, quote, d, now);
      return match one case Err(f) => Err(f) case Ok(fill) => Ok([fill]);
    }

    method OfferAll(quote: Quote, ids: seq<Id>, now: Instant) returns (r: Result<seq<Fill>, Fault>)
      modifies this
      ensures Outcome(State(), r) == FillAll(cfg, old(State()), quote, ids, [], now)
    {
      var produced: seq<Fill> := [];
      assert ids[0..] == ids;
      for i := 0 to |ids|
        invariant FillAll(cfg, old(State()), quote, ids, [], now) == FillAll(cfg, State(), quote, ids[i..], produced, now)
      {
        assert ids[i..][0] == ids[i] && ids[i..][1..] == ids[i + 1..];
        var one := Offer(quote, ids[i], now);
        if one.Err? { return one; }
        produced := produced + one.value;
      }
      return Ok(produced);
    }

    method ConsumeQuote(quote: Quote, now: Instant) returns (r: Result<seq<Fill>, Fault>)
      modifies this
      ensures Outcome(State(), r) == ObserveQuote(cfg, old(State()), quote, now)
    {
      var fault := QuoteFault(State(), quote, now);
      if fault.Some? { return Err(fault.value); }
      if QuoteRepeated(State(), quote) { return Ok([]); }
      quotes := Put(quotes, quote.contract.instrument, quote);
      Mark(quote);
      if now.t - quote.observedAt > cfg.maxQuoteAge { return Ok([]); }
      r := OfferAll(quote, KeysOf(orders), now);
    }

    // ---- expiration -------------------------------------------------------------------------

    method ExpireDueOrders(date: int) returns (ids: seq<Id>)
      modifies this
      ensures ids == ExpiredIds(old(orders), date)
      ensures State() == old(State()).(orders := ExpireOrders(old(orders), date))
    {
      ids := [];
      ghost var was := orders;
      for i := 0 to |orders|
        invariant |orders| == |was|
        invariant State() == old(State()).(orders := orders)
        invariant forall k :: 0 <= k < i ==> orders[k] == (was[k].0, ExpireOrder(was[k].1, date))
        invariant forall k :: i <= k < |was| ==> orders[k] == was[k]
        invariant ids + ExpiredIds(was[i..], date) == ExpiredIds(was, date)
      {
        assert was[i..][0] == was[i] && was[i..][1..] == was[i + 1..];
        if Expires(orders[i].1, date) {
          var o := orders[i].1;
          orders := orders[i := (orders[i].0, o.(published := o.published.(state := Expired)))];
          ids := ids + [o.published.orderId];
        }
      }
      assert was[|was|..] == [];
      assert orders == ExpireOrders(was, date);
    }

    method Settle(id: Id, date: int, policy: Policy, prices: map<Id, real>, done: Expiration)
      returns (r: Result<Expiration, Fault>)
      modifies this
      ensures Outcome(State(), r) == SettleOne(old(State()), id, date, policy, prices, done)
    {
      var found := Get(positions, id);
      if found.None? || found.value.contract.expiration > date { return Ok(done); }
      var settled := SettlementPrice(id, policy, prices);
      if settled.None? { return Err(NegativeSettlement); }
      var p, price := found.value, settled.value;
      ghost var before := State();
      assert SettleOne(before, id, date, policy, prices, done) ==
        Outcome(SettlePosition(before, id, price), Ok(SettlementDone(before, id, price, done)));
      r := Ok(SettlementDone(State(), id, price, done));
      var pnl := Unrealized(price, p.average, p.quantity, p.contract.multiplier);
      cash := cash + Value(price, p.quantity, p.contract.multiplier);
      realized := realized + pnl;
      closed := Put(closed, id, ClosedSoFar(State(), id) + p.realized + pnl);
      positions := Del(positions, id);
      assert State() == SettlePosition(before, id, price);
    }

    method ProcessExpirations(onDate: Option<int>, policy: Policy, prices: map<Id, real>, now: Instant)
      returns (r: Result<Expiration, Fault>)
      modifies this
      ensures Outcome(State(), r) == Expire(old(State()), onDate, policy, prices, now)
    {
      var date := match onDate case None => now.day case Some(d) => d;
      if date > now.day { return Err(FutureExpiration); }
      var expired := ExpireDueOrders(date);
      var done := Expiration(now.t, date, expired, [], 0.0, 0.0, policy);
      ghost var start, begun := State(), done;
      var ids := KeysOf(positions);
      assert ids[0..] == ids;
      for i := 0 to |ids|
        invariant SettleAll(start, ids, date, policy, prices, begun) == SettleAll(State(), ids[i..], date, policy, prices, done)
      {
        assert ids[i..][0] == ids[i] && ids[i..][1..] == ids[i + 1..];
        var one := Settle(ids[i], date, policy, prices, done);
        if one.Err? { return one; }
        done := one.value;
      }
      return Ok(done);
    }

    // ---- snapshot and restore ---------------------------------------------------------------

    method TakeOver(l: Ledger)
      modifies this
      ensures State() == l
    {
      cash, orders, orderByKey, positions, fills := l.cash, l.orders, l.orderByKey, l.positions, l.fills;
      quotes, proposals, rejections, deposits := l.quotes, l.proposals, l.rejections, l.deposits;
      entries, realized, closed := l.entries, l.realized, l.closed;
    }

    /** A refused snapshot changes nothing; an accepted one replaces the whole state, and whatever
        is accepted has clean books. */
    method RestoreState(n: Snapshot, now: Instant) returns (fault: Option<RestoreFault>)
      modifies this
      ensures fault == RestoreFaultOf(cfg, n, now)
      ensures State() == if fault.None? then Rebuilt(n) else old(State())
      ensures fault.None? ==> CleanBooks(State())
    {
      fault := RestoreFaultOf(cfg, n, now);
      if fault.Some? { return; }
      var restored := Rebuilt(n);
      DiscrepanciesExact(restored);
      TakeOver(restored);
    }
  }
}
