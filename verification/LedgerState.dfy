/** The state of the shadow ledger and, operation by operation, the state and the result it
    leaves. A raised error keeps the changes made before it, as the ledger does. */
module LedgerState {
  import opened Dicts
  import opened Domain
  import opened FillModels

  datatype Config = Config(
    environment: Environment, kind: AccountKind, namespace: string, initialCash: Money,
    model: FillModel, modelVersion: string, maxQuoteAge: int)

  datatype LedgerOrder = LedgerOrder(published: BrokerOrder, command: Command)

  datatype Deposit = Deposit(amount: real, at: int, reference: string)

  datatype Reason = ContractExpired | InsufficientBuyingPower | InsufficientPosition

  datatype Ledger = Ledger(
    cash: real,
    orders: Dict<Id, LedgerOrder>,
    orderByKey: map<Id, Id>,
    positions: Dict<Id, Position>,
    fills: seq<Fill>,
    quotes: Dict<Id, Quote>,
    proposals: Dict<Id, Proposal>,
    rejections: map<Id, seq<Reason>>,
    deposits: seq<Deposit>,
    entries: map<int, set<Id>>,
    realized: real,
    closed: Dict<Id, real>)

  datatype Fault =
    // refusals of a caller's input
    | NonPositiveDeposit | FutureQuote | QuoteIdReused | QuoteOutOfOrder | InstrumentReused
    | WrongEnvironment | WrongNamespace | WrongAction | WrongInstrument | ProposalDiffers
    | KeyReused | UnknownOrder | FutureExpiration | NegativeSettlement
    // the ledger's own safety-critical guards
    | InvalidFillQuantity | NonPositiveFillPrice | BuyAboveLimit | SellBelowLimit | CashNegative
    | Oversell | NotCancelable
  {
    predicate IsGuard() {
      InvalidFillQuantity? || NonPositiveFillPrice? || BuyAboveLimit? || SellBelowLimit?
      || CashNegative? || Oversell? || NotCancelable?
    }
  }

  datatype Outcome<T> = Outcome(ledger: Ledger, result: Result<T, Fault>)

  function Fresh(cfg: Config): Ledger {
    Ledger(cfg.initialCash, [], map[], [], [], [], [], map[], [], map[], 0.0, [])
  }

  // ---- reservations -------------------------------------------------------------------------

  function BuyReserve(o: LedgerOrder): real {
    var p := o.published;
    if IsOpen(p.state) && p.side.BuyToOpen?
    then Value(p.limit, p.quantity - p.filled, p.contract.multiplier) else 0.0
  }

  function ReservedBuyingPower(s: Ledger): real {
    Sum(BuyReserve, s.orders)
  }

  function BuyingPower(s: Ledger): real {
    s.cash - ReservedBuyingPower(s)
  }

  function SellReserve(instrument: Id): LedgerOrder -> int {
    (o: LedgerOrder) =>
      var p := o.published;
      if IsOpen(p.state) && p.side.SellToClose? && p.contract.instrument == instrument
      then p.quantity - p.filled else 0
  }

  function Owned(s: Ledger, instrument: Id): int {
    match Get(s.positions, instrument) case None => 0 case Some(p) => p.quantity
  }

  function AvailableQuantity(s: Ledger, instrument: Id): int {
    Owned(s, instrument) - Count(SellReserve(instrument), s.orders)
  }

  // ---- deposit, review, submit, cancel ------------------------------------------------------

  function DepositCash(s: Ledger, amount: real, reference: string, now: Instant): Outcome<Deposit> {
    if amount <= 0.0 then Outcome(s, Err(NonPositiveDeposit))
    else
      var d := Deposit(amount, now.t, reference);
      Outcome(s.(cash := s.cash + amount, deposits := s.deposits + [d]), Ok(d))
  }

  datatype Warning =
    | ReviewEnvironment | ReviewNamespace | ReviewExpired | ReviewNoQuote | ReviewOldQuote
    | ReviewFutureQuote | ReviewStaleQuote | ReviewBuyingPower | ReviewPosition

  function BindingWarnings(cfg: Config, p: Proposal, now: Instant): seq<Warning> {
    (if p.environment != cfg.environment then [ReviewEnvironment] else [])
    + (if p.namespace != cfg.namespace then [ReviewNamespace] else [])
    + (if p.contract.expiration < now.day then [ReviewExpired] else [])
  }

  function QuoteWarnings(cfg: Config, s: Ledger, p: Proposal, now: Instant): seq<Warning> {
    match Get(s.quotes, p.contract.instrument)
    case None => [ReviewNoQuote]
    case Some(q) =>
      (if q.snapshotId != p.quoteSnapshotId then [ReviewOldQuote] else [])
      + (if q.effectiveAt > now.t || q.observedAt > now.t then [ReviewFutureQuote]
         else if now.t - q.observedAt > cfg.maxQuoteAge then [ReviewStaleQuote] else [])
  }

  function CapacityWarnings(s: Ledger, p: Proposal): seq<Warning> {
    if p.side.BuyToOpen? then if p.MaxLoss() > BuyingPower(s) then [ReviewBuyingPower] else []
    else if p.quantity > AvailableQuantity(s, p.contract.instrument) then [ReviewPosition] else []
  }

  function ReviewWarnings(cfg: Config, s: Ledger, p: Proposal, now: Instant): seq<Warning> {
    BindingWarnings(cfg, p, now) + QuoteWarnings(cfg, s, p, now) + CapacityWarnings(s, p)
  }

  function ReviewProposal(cfg: Config, s: Ledger, p: Proposal, now: Instant): Outcome<seq<Warning>> {
    Outcome(s.(proposals := Put(s.proposals, p.proposalId, p)), Ok(ReviewWarnings(cfg, s, p, now)))
  }

  function CommandFault(cfg: Config, s: Ledger, c: Command, contract: Contract): Option<Fault> {
    if c.environment != cfg.environment then Some(WrongEnvironment)
    else if c.namespace != cfg.namespace then Some(WrongNamespace)
    else if c.action != PlaceOptionOrder then Some(WrongAction)
    else if c.instrument != contract.instrument then Some(WrongInstrument)
    else match Get(s.proposals, c.proposalId)
      case None => None
      case Some(p) =>
        if p.contract.instrument != c.instrument || p.side != c.side || p.quantity != c.quantity
           || p.limit != c.limit
        then Some(ProposalDiffers) else None
  }

  /** The order a repeated idempotency key already stands for, if any. */
  function Duplicate(s: Ledger, c: Command): Option<Result<BrokerOrder, Fault>> {
    if c.idempotencyKey !in s.orderByKey then None
    else match Get(s.orders, s.orderByKey[c.idempotencyKey])
      case None => Some(Err(UnknownOrder))
      case Some(o) =>
        if c.action.PlaceOptionOrder? && o.command != c then Some(Err(KeyReused))
        else Some(Ok(o.published))
  }

  function SubmitReasons(s: Ledger, c: Command, contract: Contract, now: Instant): seq<Reason> {
    (if contract.expiration < now.day then [ContractExpired] else [])
    + (if c.side.BuyToOpen? then
         if Value(c.limit, c.quantity, contract.multiplier) > BuyingPower(s)
         then [InsufficientBuyingPower] else []
       else if c.quantity > AvailableQuantity(s, contract.instrument)
       then [InsufficientPosition] else [])
  }

  function NewOrder(cfg: Config, c: Command, contract: Contract, accepted: bool, now: Instant): BrokerOrder {
    BrokerOrder(c.orderIntentId, c.orderIntentId, cfg.environment, if accepted then Open else Rejected,
                contract, c.side, c.quantity, 0, c.limit, None, Some(now), now.t)
  }

  function EntriesOn(s: Ledger, day: int): set<Id> {
    if day in s.entries then s.entries[day] else {}
  }

  function AddEntry(s: Ledger, day: int, order: Id): Ledger {
    s.(entries := s.entries[day := EntriesOn(s, day) + {order}])
  }

  function Submit(cfg: Config, s: Ledger, c: Command, contract: Contract, now: Instant): Outcome<BrokerOrder> {
    match CommandFault(cfg, s, c, contract)
    case Some(f) => Outcome(s, Err(f))
    case None =>
      match Duplicate(s, c)
      case Some(r) => Outcome(s, r)
      case None =>
        var reasons := SubmitReasons(s, c, contract, now);
        var order := NewOrder(cfg, c, contract, reasons == [], now);
        var s1 := s.(orders := Put(s.orders, order.orderId, LedgerOrder(order, c)),
                     orderByKey := s.orderByKey[c.idempotencyKey := order.orderId]);
        var s2 := if reasons != [] then s1.(rejections := s1.rejections[order.orderId := reasons])
                  else if c.side.BuyToOpen? then AddEntry(s1, now.day, order.orderId)
                  else s1;
        Outcome(s2, Ok(order))
  }

  function WithPublished(s: Ledger, o: LedgerOrder, p: BrokerOrder): Ledger {
    s.(orders := Put(s.orders, o.published.orderId, o.(published := p)))
  }

  function Cancel(cfg: Config, s: Ledger, c: Command, orderId: Id): Outcome<BrokerOrder> {
    if c.action != CancelOptionOrder then Outcome(s, Err(WrongAction))
    else if c.environment != cfg.environment then Outcome(s, Err(WrongEnvironment))
    else match Duplicate(s, c)
      case Some(r) => Outcome(s, r)
      case None =>
        match Get(s.orders, orderId)
        case None => Outcome(s, Err(UnknownOrder))
        case Some(o) =>
          var p := o.published;
          if c.instrument != p.contract.instrument then Outcome(s, Err(WrongInstrument))
          else if IsTerminal(p.state) then
            Outcome(s.(orderByKey := s.orderByKey[c.idempotencyKey := p.orderId]), Ok(p))
          else if !IsOpen(p.state) then Outcome(s, Err(NotCancelable))
          else
            var canceled := p.(state := Canceled);
            Outcome(WithPublished(s, o, canceled).(orderByKey := s.orderByKey[c.idempotencyKey := p.orderId]),
                    Ok(canceled))
  }

  // ---- quotes and fills ---------------------------------------------------------------------

  function Unrealized(bid: real, average: real, quantity: int, multiplier: int): real {
    (bid - average) * quantity as real * multiplier as real
  }

  function Marked(p: Position, q: Quote): Position {
    var u := Unrealized(q.bid, p.average, p.quantity, p.contract.multiplier);
    p.(bid := q.bid, ask := q.ask, best := Greatest(p.best, u), worst := Least(p.worst, u))
  }

  function MarkPosition(s: Ledger, q: Quote): Ledger {
    match Get(s.positions, q.contract.instrument)
    case None => s
    case Some(p) => s.(positions := Put(s.positions, q.contract.instrument, Marked(p, q)))
  }

  function Opened(cfg: Config, s: Ledger, c: Command, contract: Contract, q: Quote, quantity: int,
                  price: real, now: Instant): Position {
    var u := Unrealized(q.bid, price, quantity, contract.multiplier);
    match Get(s.proposals, c.proposalId)
    case None =>
      Position(now.t, cfg.environment, contract, quantity, price, q.bid, q.ask, 0.0, u, u,
               c.proposalId, "unknown", [])
    case Some(p) =>
      Position(now.t, cfg.environment, contract, quantity, price, q.bid, q.ask, 0.0, u, u,
               p.packetId, p.policyVersion, p.invalidation)
  }

  function AverageUp(average: real, held: int, price: real, quantity: int): real {
    if held + quantity == 0 then 0.0
    else (average * held as real + price * quantity as real) / (held + quantity) as real
  }

  function ApplyEntry(cfg: Config, s: Ledger, c: Command, contract: Contract, q: Quote, quantity: int,
                      price: real, now: Instant): Ledger {
    match Get(s.positions, contract.instrument)
    case None =>
      s.(positions := Put(s.positions, contract.instrument, Opened(cfg, s, c, contract, q, quantity, price, now)))
    case Some(p) =>
      var grown := p.(quantity := p.quantity + quantity,
                      average := AverageUp(p.average, p.quantity, price, quantity),
                      bid := q.bid, ask := q.ask);
      MarkPosition(s.(positions := Put(s.positions, contract.instrument, grown)), q)
  }

  function ClosedSoFar(s: Ledger, instrument: Id): real {
    match Get(s.closed, instrument) case None => 0.0 case Some(r) => r
  }

  /** Book `pnl` for `position` and remove it. */
  function ClosePosition(s: Ledger, instrument: Id, position: Position, pnl: real): Ledger {
    s.(realized := s.realized + pnl,
       closed := Put(s.closed, instrument, ClosedSoFar(s, instrument) + position.realized + pnl),
       positions := Del(s.positions, instrument))
  }

  function ApplyExit(s: Ledger, contract: Contract, quantity: int, price: real): Option<Ledger> {
    match Get(s.positions, contract.instrument)
    case None => None
    case Some(p) =>
      if quantity > p.quantity then None
      else
        var pnl := Unrealized(price, p.average, quantity, contract.multiplier);
        if p.quantity - quantity == 0 then Some(ClosePosition(s, contract.instrument, p, pnl))
        else Some(s.(realized := s.realized + pnl,
                     positions := Put(s.positions, contract.instrument,
                       p.(quantity := p.quantity - quantity, realized := p.realized + pnl))))
  }

  function FillGuard(p: BrokerOrder, quantity: int, price: real): Option<Fault> {
    if quantity <= 0 || quantity > p.quantity - p.filled then Some(InvalidFillQuantity)
    else if price <= 0.0 then Some(NonPositiveFillPrice)
    else if p.side.BuyToOpen? && price > p.limit then Some(BuyAboveLimit)
    else if p.side.SellToClose? && price < p.limit then Some(SellBelowLimit)
    else None
  }

  function Notional(p: BrokerOrder, quantity: int, price: real): real {
    Value(price, quantity, p.contract.multiplier)
  }

  function FilledBy(p: BrokerOrder, quantity: int, price: real): BrokerOrder {
    var filled := p.filled + quantity;
    var prior := (match p.averageFill case None => 0.0 case Some(a) => a) * p.filled as real;
    p.(state := if filled == p.quantity then Filled else Partial,
       filled := filled,
       averageFill := if filled == 0 then None else Some((prior + price * quantity as real) / filled as real))
  }

  /** The book side of a fill: cash, position and, for a buy, the day's entries. */
  function BookFill(cfg: Config, s: Ledger, o: LedgerOrder, q: Quote, quantity: int, price: real,
                    now: Instant): Result<Ledger, Fault> {
    var p := o.published;
    var notional := Notional(p, quantity, price);
    if p.side.BuyToOpen? then
      if notional > s.cash then Err(CashNegative)
      else Ok(AddEntry(ApplyEntry(cfg, s.(cash := s.cash - notional), o.command, p.contract, q, quantity, price, now),
                       now.day, p.orderId))
    else match ApplyExit(s, p.contract, quantity, price)
      case None => Err(Oversell)
      case Some(s1) => Ok(s1.(cash := s1.cash + notional))
  }

  function ApplyFill(cfg: Config, s: Ledger, o: LedgerOrder, q: Quote, d: FillDecision, now: Instant): Outcome<Fill>
    requires d.ShouldFill()
  {
    var price := d.price.value;
    match FillGuard(o.published, d.quantity, price)
    case Some(f) => Outcome(s, Err(f))
    case None =>
      match BookFill(cfg, s, o, q, d.quantity, price, now)
      case Err(f) => Outcome(s, Err(f))
      case Ok(s1) =>
        var fill := Fill(|s1.fills|, now.t, o.published.orderId, d.quantity, price, q.snapshotId,
                         cfg.modelVersion, d.seed, d.reason);
        Outcome(WithPublished(s1, o, FilledBy(o.published, d.quantity, price)).(fills := s1.fills + [fill]),
                Ok(fill))
  }

  /** Whether a quote may be used for an order: same instrument, order still working, and the
      quote strictly later than the submission. */
  predicate Eligible(p: BrokerOrder, q: Quote) {
    p.contract.instrument == q.contract.instrument && IsOpen(p.state)
    && p.submittedAt.Some? && q.effectiveAt > p.submittedAt.value.t
  }

  /** Offer a quote to one order: at most one fill. */
  function FillOne(cfg: Config, s: Ledger, q: Quote, id: Id, now: Instant): Outcome<seq<Fill>> {
    match Get(s.orders, id)
    case None => Outcome(s, Ok([]))
    case Some(o) =>
      var p := o.published;
      if !Eligible(p, q) then Outcome(s, Ok([]))
      else
        var d := Evaluate(cfg.model, p, q, p.quantity - p.filled);
        if !d.ShouldFill() then Outcome(s, Ok([]))
        else
          var r := ApplyFill(cfg, s, o, q, d, now);
          Outcome(r.ledger, match r.result case Err(f) => Err(f) case Ok(fill) => Ok([fill]))
  }

  /** Offer a quote to the orders `ids` in turn; the first error stops the pass. */
  function FillAll(cfg: Config, s: Ledger, q: Quote, ids: seq<Id>, produced: seq<Fill>, now: Instant): Outcome<seq<Fill>>
    decreases |ids|
  {
    if ids == [] then Outcome(s, Ok(produced))
    else
      var one := FillOne(cfg, s, q, ids[0], now);
      match one.result
      case Err(f) => one
      case Ok(fills) => FillAll(cfg, one.ledger, q, ids[1..], produced + fills, now)
  }

  function QuoteFault(s: Ledger, q: Quote, now: Instant): Option<Fault> {
    if q.effectiveAt > now.t || q.observedAt > now.t then Some(FutureQuote)
    else match Get(s.quotes, q.contract.instrument)
      case None => None
      case Some(prior) =>
        if prior.snapshotId == q.snapshotId then if prior != q then Some(QuoteIdReused) else None
        else if q.effectiveAt < prior.effectiveAt then Some(QuoteOutOfOrder)
        else if prior.contract != q.contract then Some(InstrumentReused)
        else None
  }

  function QuoteRepeated(s: Ledger, q: Quote): bool {
    match Get(s.quotes, q.contract.instrument) case None => false case Some(prior) => prior.snapshotId == q.snapshotId
  }

  function ObserveQuote(cfg: Config, s: Ledger, q: Quote, now: Instant): Outcome<seq<Fill>> {
    match QuoteFault(s, q, now)
    case Some(f) => Outcome(s, Err(f))
    case None =>
      if QuoteRepeated(s, q) then Outcome(s, Ok([]))
      else
        var s1 := MarkPosition(s.(quotes := Put(s.quotes, q.contract.instrument, q)), q);
        if now.t - q.observedAt > cfg.maxQuoteAge then Outcome(s1, Ok([]))
        else FillAll(cfg, s1, q, KeysOf(s1.orders), [], now)
  }

  // ---- expiration ---------------------------------------------------------------------------

  datatype Policy = DoNotExercise | CashSettle

  datatype Expiration = Expiration(
    processedAt: int, date: int, orders: seq<Id>, instruments: seq<Id>, settlement: real,
    realized: real, policy: Policy)

  predicate Expires(o: LedgerOrder, date: int) {
    var p := o.published;
    var submitted := if p.submittedAt.Some? then p.submittedAt.value.day else date;
    IsOpen(p.state) && ((o.command.dayOrder && submitted <= date) || p.contract.expiration <= date)
  }

  function ExpireOrder(o: LedgerOrder, date: int): LedgerOrder {
    if Expires(o, date) then o.(published := o.published.(state := Expired)) else o
  }

  function ExpireOrders(d: Dict<Id, LedgerOrder>, date: int): (e: Dict<Id, LedgerOrder>)
    ensures |e| == |d|
    ensures forall i :: 0 <= i < |d| ==> e[i] == (d[i].0, ExpireOrder(d[i].1, date))
  {
    seq(|d|, i requires 0 <= i < |d| => (d[i].0, ExpireOrder(d[i].1, date)))
  }

  function ExpiredIds(d: Dict<Id, LedgerOrder>, date: int): seq<Id> {
    if d == [] then []
    else (if Expires(d[0].1, date) then [d[0].1.published.orderId] else []) + ExpiredIds(d[1..], date)
  }

  /** The price a due position settles at; none when the price supplied for it is negative. */
  function SettlementPrice(id: Id, policy: Policy, prices: map<Id, real>): Option<real> {
    var quoted := if id in prices then prices[id] else 0.0;
    if quoted < 0.0 then None else Some(if policy.DoNotExercise? then 0.0 else quoted)
  }

  function SettlePosition(s: Ledger, id: Id, price: real): Ledger
    requires Has(s.positions, id)
  {
    var p := Get(s.positions, id).value;
    ClosePosition(s.(cash := s.cash + Value(price, p.quantity, p.contract.multiplier)), id, p,
                  Unrealized(price, p.average, p.quantity, p.contract.multiplier))
  }

  function SettlementDone(s: Ledger, id: Id, price: real, done: Expiration): Expiration
    requires Has(s.positions, id)
  {
    var p := Get(s.positions, id).value;
    done.(instruments := done.instruments + [id],
          settlement := done.settlement + Value(price, p.quantity, p.contract.multiplier),
          realized := done.realized + Unrealized(price, p.average, p.quantity, p.contract.multiplier))
  }

  /** Settle one position if it is due. */
  function SettleOne(s: Ledger, id: Id, date: int, policy: Policy, prices: map<Id, real>, done: Expiration): Outcome<Expiration> {
    if Get(s.positions, id).None? || Get(s.positions, id).value.contract.expiration > date then Outcome(s, Ok(done))
    else
      match SettlementPrice(id, policy, prices)
      case None => Outcome(s, Err(NegativeSettlement))
      case Some(price) => Outcome(SettlePosition(s, id, price), Ok(SettlementDone(s, id, price, done)))
  }

  /** Settle the due positions among `ids` in turn; a negative settlement price stops the pass
      after the positions already settled. */
  function SettleAll(s: Ledger, ids: seq<Id>, date: int, policy: Policy, prices: map<Id, real>,
                     done: Expiration): Outcome<Expiration>
    decreases |ids|
  {
    if ids == [] then Outcome(s, Ok(done))
    else
      var one := SettleOne(s, ids[0], date, policy, prices, done);
      match one.result
      case Err(f) => one
      case Ok(more) => SettleAll(one.ledger, ids[1..], date, policy, prices, more)
  }

  function Expire(s: Ledger, onDate: Option<int>, policy: Policy, prices: map<Id, real>, now: Instant): Outcome<Expiration> {
    var date := match onDate case None => now.day case Some(d) => d;
    if date > now.day then Outcome(s, Err(FutureExpiration))
    else
      SettleAll(s.(orders := ExpireOrders(s.orders, date)), KeysOf(s.positions), date, policy, prices,
                Expiration(now.t, date, ExpiredIds(s.orders, date), [], 0.0, 0.0, policy))
  }

  // ---- account view -------------------------------------------------------------------------

  function Cost(p: Position): real {
    Value(p.average, p.quantity, p.contract.multiplier)
  }

  function OpenOptionRisk(s: Ledger): real {
    Sum(Cost, s.positions) + ReservedBuyingPower(s)
  }

  function PendingInstruments(d: Dict<Id, LedgerOrder>): set<Id> {
    if d == [] then {}
    else
      var p := d[0].1.published;
      (if IsOpen(p.state) && p.side.BuyToOpen? then {p.contract.instrument} else {}) + PendingInstruments(d[1..])
  }

  function HeldInstruments(d: Dict<Id, Position>): set<Id> {
    if d == [] then {} else {d[0].0} + HeldInstruments(d[1..])
  }

  function OpenInstruments(s: Ledger): set<Id> {
    HeldInstruments(s.positions) + PendingInstruments(s.orders)
  }

  function AccountSnapshot(cfg: Config, s: Ledger, now: Instant): Account {
    Account(cfg.environment, s.cash, Greatest(0.0, BuyingPower(s)), OpenOptionRisk(s),
            |OpenInstruments(s)|, |EntriesOn(s, now.day)|, now.t, true, true)
  }
}
