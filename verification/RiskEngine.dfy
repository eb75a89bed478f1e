/** The pure risk evaluator: an ordered list of rule outcomes, allowed when none failed. */
module RiskEngine {
  import opened Dicts
  import opened Domain

  datatype Rule =
    | EnvironmentMatch | ConfigVersionMatch | AccountStateKnown | LiveAuthenticated | AccountFresh
    | QuoteFresh | QuoteMatch | EntrySide | AllowedInstrument | ContractLimit | PremiumLimit
    | AggregateRiskLimit | OpenPositionLimit | DailyEntryLimit | CashAffordable
    | BuyingPowerAffordable | LiveCapitalCeiling | NonzeroBid | MinimumOpenInterest
    | MinimumVolume | MaximumSpread

  datatype RiskConfig = RiskConfig(
    version: string, allowed: set<OptionType>, maxContracts: Positive, maxPremium: Price,
    maxTotalRisk: Price, maxPositions: Positive, maxEntries: Positive, dailyEnabled: bool,
    requireBid: bool, minOpenInterest: nat, minVolume: nat, maxSpreadPercent: Price,
    maxQuoteAge: Positive, maxAccountAge: Positive, liveCeiling: Option<Price>)

  datatype RiskDecision = RiskDecision(
    allowed: bool, failed: seq<Rule>, passed: seq<Rule>, proposedLoss: real, resultingRisk: real, dataFresh: bool)

  type Outcomes = seq<(Rule, bool)>

  function Select(o: Outcomes, passed: bool): seq<Rule> {
    if o == [] then [] else (if o[0].1 == passed then [o[0].0] else []) + Select(o[1..], passed)
  }

  function Identity(c: RiskConfig, p: Proposal, a: Account): Outcomes {
    [(EnvironmentMatch, p.environment == a.environment),
     (ConfigVersionMatch, p.riskConfigVersion == c.version),
     (AccountStateKnown, a.stateKnown),
     (LiveAuthenticated, p.environment != Live || a.authenticated)]
  }

  predicate AccountIsFresh(c: RiskConfig, a: Account, now: int) {
    0 <= now - a.asOf <= c.maxAccountAge
  }

  predicate QuoteIsFresh(c: RiskConfig, p: Proposal, q: Quote, now: int) {
    0 <= now - q.observedAt <= c.maxQuoteAge && q.effectiveAt <= q.observedAt <= now && p.quoteAsOf <= now
  }

  function Freshness(c: RiskConfig, p: Proposal, a: Account, q: Quote, now: int): Outcomes {
    [(AccountFresh, AccountIsFresh(c, a, now)),
     (QuoteFresh, QuoteIsFresh(c, p, q, now)),
     (QuoteMatch, q.snapshotId == p.quoteSnapshotId && q.contract == p.contract && p.quoteAsOf == q.observedAt)]
  }

  function Limits(c: RiskConfig, p: Proposal, a: Account): Outcomes {
    var loss := p.MaxLoss();
    var resulting := a.openOptionRisk + loss;
    [(EntrySide, p.side.BuyToOpen?),
     (AllowedInstrument, p.contract.optionType in c.allowed),
     (ContractLimit, p.quantity <= c.maxContracts),
     (PremiumLimit, loss <= c.maxPremium),
     (AggregateRiskLimit, resulting <= c.maxTotalRisk),
     (OpenPositionLimit, a.openPositions < c.maxPositions),
     (DailyEntryLimit, !c.dailyEnabled || a.newEntriesToday < c.maxEntries),
     (CashAffordable, a.cash >= loss),
     (BuyingPowerAffordable, a.buyingPower >= loss),
     (LiveCapitalCeiling, p.environment != Live || (c.liveCeiling.Some? && resulting <= c.liveCeiling.value))]
  }

  function Liquidity(c: RiskConfig, q: Quote): Outcomes {
    [(NonzeroBid, !c.requireBid || q.bid > 0.0),
     (MinimumOpenInterest, q.openInterest.Some? && q.openInterest.value >= c.minOpenInterest),
     (MinimumVolume, q.volume.Some? && q.volume.value >= c.minVolume),
     (MaximumSpread, q.ask > 0.0 && (q.ask - q.bid) / q.ask * 100.0 <= c.maxSpreadPercent)]
  }

  function Decision(o: Outcomes, loss: real, resulting: real): RiskDecision {
    var failed := Select(o, false);
    var passed := Select(o, true);
    RiskDecision(failed == [], failed, passed, loss, resulting, AccountFresh in passed && QuoteFresh in passed)
  }

  function EvaluateRisk(c: RiskConfig, p: Proposal, a: Account, q: Quote, now: int): RiskDecision {
    var common := Identity(c, p, a) + Freshness(c, p, a, q, now);
    if p.side.SellToClose? then Decision(common, 0.0, a.openOptionRisk)
    else Decision(common + Limits(c, p, a) + Liquidity(c, q), p.MaxLoss(), a.openOptionRisk + p.MaxLoss())
  }

  lemma {:induction false} SelectExact(o: Outcomes, passed: bool)
    ensures Select(o, passed) == [] <==> forall i :: 0 <= i < |o| ==> o[i].1 != passed
    ensures |Select(o, true)| + |Select(o, false)| == |o|
    ensures forall r :: r in Select(o, passed) <==> (r, passed) in o
  {
    if o != [] {
      SelectExact(o[1..], passed);
      SelectExact(o[1..], !passed);
      assert forall i :: 0 < i < |o| ==> o[i] == o[1..][i - 1];
      assert o == [o[0]] + o[1..];
      assert Select(o, passed) == [] ==> Select(o[1..], passed) == [];
    }
  }

  /** A decision allows exactly when every rule evaluated passed. For an entry the aggregate,
      position, daily and affordability limits are then respected by the account it was judged on
      with the new order added; an exit is held only to identity and freshness. */
  lemma AllowedExactly(c: RiskConfig, p: Proposal, a: Account, q: Quote, now: int)
    ensures EvaluateRisk(c, p, a, q, now).allowed <==>
      && p.environment == a.environment && p.riskConfigVersion == c.version && a.stateKnown
      && (p.environment == Live ==> a.authenticated)
      && AccountIsFresh(c, a, now) && QuoteIsFresh(c, p, q, now)
      && q.snapshotId == p.quoteSnapshotId && q.contract == p.contract && p.quoteAsOf == q.observedAt
      && (p.side.BuyToOpen? ==> WithinLimits(c, p, a) && Liquid(c, q))
  {
    var common := Identity(c, p, a) + Freshness(c, p, a, q, now);
    SelectExact(common, false);
    assert common[0] == Identity(c, p, a)[0] && common[1] == Identity(c, p, a)[1]
        && common[2] == Identity(c, p, a)[2] && common[3] == Identity(c, p, a)[3];
    assert common[4] == Freshness(c, p, a, q, now)[0] && common[5] == Freshness(c, p, a, q, now)[1]
        && common[6] == Freshness(c, p, a, q, now)[2];
    if p.side.BuyToOpen? {
      EntryOutcomes(c, p, a, q, common);
    }
  }

  ghost predicate WithinLimits(c: RiskConfig, p: Proposal, a: Account) {
    var loss := p.MaxLoss();
    && p.contract.optionType in c.allowed && p.quantity <= c.maxContracts && loss <= c.maxPremium
    && a.openOptionRisk + loss <= c.maxTotalRisk
    && a.openPositions < c.maxPositions
    && (c.dailyEnabled ==> a.newEntriesToday < c.maxEntries)
    && loss <= a.cash && loss <= a.buyingPower
    && (p.environment == Live ==> c.liveCeiling.Some? && a.openOptionRisk + loss <= c.liveCeiling.value)
  }

  ghost predicate Liquid(c: RiskConfig, q: Quote) {
    && (c.requireBid ==> q.bid > 0.0)
    && q.openInterest.Some? && q.openInterest.value >= c.minOpenInterest
    && q.volume.Some? && q.volume.value >= c.minVolume
    && q.ask > 0.0 && (q.ask - q.bid) / q.ask * 100.0 <= c.maxSpreadPercent
  }

  lemma LimitsMean(c: RiskConfig, p: Proposal, a: Account)
    requires p.side.BuyToOpen?
    ensures Select(Limits(c, p, a), false) == [] <==> WithinLimits(c, p, a)
  {
    var o := Limits(c, p, a);
    SelectExact(o, false);
    if forall i :: 0 <= i < |o| ==> o[i].1 {
      assert o[1].1 && o[2].1 && o[3].1 && o[4].1 && o[5].1 && o[6].1 && o[7].1 && o[8].1 && o[9].1;
    }
  }

  lemma LiquidityMeans(c: RiskConfig, q: Quote)
    ensures Select(Liquidity(c, q), false) == [] <==> Liquid(c, q)
  {
    var o := Liquidity(c, q);
    SelectExact(o, false);
    if forall i :: 0 <= i < |o| ==> o[i].1 { assert o[0].1 && o[1].1 && o[2].1 && o[3].1; }
  }

  lemma {:induction false} EntryOutcomes(c: RiskConfig, p: Proposal, a: Account, q: Quote, common: Outcomes)
    requires p.side.BuyToOpen?
    ensures var all := common + Limits(c, p, a) + Liquidity(c, q);
      Select(all, false) == [] <==> Select(common, false) == [] && WithinLimits(c, p, a) && Liquid(c, q)
  {
    SelectSplit(common, Limits(c, p, a), false);
    SelectSplit(common + Limits(c, p, a), Liquidity(c, q), false);
    LimitsMean(c, p, a);
    LiquidityMeans(c, q);
  }

  lemma {:induction false} SelectSplit(a: Outcomes, b: Outcomes, passed: bool)
    ensures Select(a + b, passed) == Select(a, passed) + Select(b, passed)
  {
    if a == [] {
      assert a + b == b;
    } else {
      var head := if a[0].1 == passed then [a[0].0] else [];
      var x, y := Select(a[1..], passed), Select(b, passed);
      SelectSplit(a[1..], b, passed);
      assert (a + b)[1..] == a[1..] + b;
      assert head + (x + y) == (head + x) + y;
    }
  }
}
