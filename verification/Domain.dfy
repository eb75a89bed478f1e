/** The value objects shared by the ledger, the risk engine and the review of closed positions.

    Money is `real`. Identities (UUIDs, instrument ids, idempotency keys) are opaque numbers, and
    the hash that derives an order id from an order intent id is the identity on them, which is
    what its injectivity allows. A moment is an `Instant`: the UTC time together with the New York
    market date it falls on, so that the time-zone database stays outside. Field constraints of
    the models are subset types. */
module Domain {
  import opened Dicts

  type Id = nat
  type Positive = n: int | n > 0 witness 1
  type Price = r: real | r > 0.0 witness 1.0
  type Money = r: real | r >= 0.0

  /** The money in `quantity` contracts of `multiplier` shares at a price per share. */
  function Value(price: real, quantity: int, multiplier: int): real {
    price * quantity as real * multiplier as real
  }

  datatype Instant = Instant(t: int, day: int)

  predicate NotBefore(a: Instant, b: Instant) {
    b.t <= a.t && b.day <= a.day
  }

  datatype Environment = Demo | Live
  datatype AccountKind = BrokerObserved | Simulated | Shadow
  datatype Side = BuyToOpen | SellToClose
  datatype Action = PlaceOptionOrder | CancelOptionOrder | ReplaceOptionOrder
  datatype OptionType = CallOption | PutOption

  datatype OrderState =
    | Proposed | Reviewed | Approved | IntentPersisted | Submitting | SubmissionUnknown
    | Open | Partial | Filled | Canceled | Rejected | Expired

  predicate IsOpen(s: OrderState) {
    s.Open? || s.Partial?
  }

  predicate IsTerminal(s: OrderState) {
    s.Filled? || s.Canceled? || s.Rejected? || s.Expired?
  }

  datatype Contract = Contract(
    instrument: Id, symbol: string, optionType: OptionType, strike: Price, expiration: int,
    multiplier: Positive)

  datatype Quote = Quote(
    snapshotId: Id, contract: Contract, bid: Money, ask: Money, last: Option<Money>,
    bidSize: Option<nat>, askSize: Option<nat>, volume: Option<nat>, openInterest: Option<nat>,
    observedAt: int, effectiveAt: int)

  datatype Proposal = Proposal(
    proposalId: Id, environment: Environment, namespace: string, packetId: Id, contract: Contract,
    side: Side, quantity: Positive, limit: Price, quoteSnapshotId: Id, quoteAsOf: int,
    policyVersion: string, riskConfigVersion: string, invalidation: seq<string>)
  {
    function MaxLoss(): real {
      Value(limit, quantity, contract.multiplier)
    }
  }

  /** A command without its creation time, so that equality is equality of command hashes. */
  datatype Command = Command(
    commandId: Id, orderIntentId: Id, environment: Environment, namespace: string, action: Action,
    instrument: Id, side: Side, quantity: Positive, limit: Price, dayOrder: bool, proposalId: Id,
    idempotencyKey: Id)

  datatype BrokerOrder = BrokerOrder(
    orderId: Id, intentId: Id, environment: Environment, state: OrderState, contract: Contract,
    side: Side, quantity: Positive, filled: int, limit: Price, averageFill: Option<real>,
    submittedAt: Option<Instant>, createdAt: int)

  datatype Fill = Fill(
    fillId: Id, createdAt: int, orderId: Id, quantity: int, price: real, marketEvent: Id,
    modelVersion: string, seed: nat, reason: string)

  datatype Position = Position(
    createdAt: int, environment: Environment, contract: Contract, quantity: int, average: real,
    bid: real, ask: real, realized: real, best: real, worst: real, thesis: Id, policy: string,
    invalidation: seq<string>)

  datatype Account = Account(
    environment: Environment, cash: real, buyingPower: real, openOptionRisk: real,
    openPositions: nat, newEntriesToday: nat, asOf: int, authenticated: bool, stateKnown: bool)
}
