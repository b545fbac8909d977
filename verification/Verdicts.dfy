/** What each name in a verdict and each number in a sizing stands for. */
module Verdicts {
  import opened Options
  import opened Market
  import opened Payoff
  import opened Positions
  import opened Vectors
  import opened Risk

  // ---------------------------------------------------------------- confidence

  /** Nothing at or below the floor; above it a straight line from one half at the floor to one at full
      confidence. */
  lemma ConfidenceFactorIsALine(confidence: real, floor: real)
    requires floor < 1.0
    ensures var factor := ConfidenceFactor(confidence, floor);
      && (confidence <= floor ==> factor == 0.0)
      && (floor < confidence < 1.0 ==>
          Product(factor - 0.5, 1.0 - floor) == 0.5 * (confidence - floor) && 0.5 < factor < 1.0)
      && (confidence >= 1.0 ==> factor == 1.0)
  {
    var d := 1.0 - floor;
    if floor < confidence {
      var x := Min(confidence, 1.0) - floor;
      var q := PositiveQuotient(x, d);
      assert Product(0.5 * q, d) == 0.5 * (q * d);
      if confidence < 1.0 {
        if q >= 1.0 { LineMonotone(Line(0.0, d), 1.0, q); }
      } else {
        SelfRatio(d);
      }
    }
  }

  /** More confidence never sizes less. */
  lemma ConfidenceFactorIsMonotone(a: real, b: real, floor: real)
    requires floor < 1.0 && a <= b
    ensures ConfidenceFactor(a, floor) <= ConfidenceFactor(b, floor) <= 1.0
  {
    ConfidenceFactorIsALine(a, floor);
    ConfidenceFactorIsALine(b, floor);
    if floor < a && b < 1.0 {
      var p, q, d := ConfidenceFactor(a, floor) - 0.5, ConfidenceFactor(b, floor) - 0.5, 1.0 - floor;
      if p > q { StrictScale(q, p, d); }
    }
  }

  /** The engine admits a confidence that sizing then grants nothing exactly at the floor itself. */
  lemma ConfidenceChecksAgreeExactlyWhen(snap: Snapshot, f: Forecast, cfg: RiskConfig)
    requires cfg.trade.minConfidence < 1.0
    ensures (LowConfidence !in EnvironmentVetoes(snap, f, cfg)
             ==> ConfidenceFactor(f.confidence, cfg.trade.minConfidence) > 0.0)
        <==> f.confidence != cfg.trade.minConfidence
  {
    ConfidenceFactorIsALine(f.confidence, cfg.trade.minConfidence);
    hide ConfidenceFactor;
  }

  /** So a forecast at the floor, vetoed for no other reason, is always refused for want of a contract. */
  lemma FloorIsNeverTraded(c: Candidate, session: SessionRecord, switches: Switches, snap: Snapshot, f: Forecast,
      portfolio: seq<Position>, broker: BrokerView, cfg: RiskConfig)
    requires f.confidence == cfg.trade.minConfidence
    ensures ZeroContracts in Judge(Some(c), session, switches, snap, f, portfolio, broker, cfg).decision.vetoes
    ensures LowConfidence !in Judge(Some(c), session, switches, snap, f, portfolio, broker, cfg).decision.vetoes
  {
    hide Judge, Crowds, Fails, Contracts, Forbids;
    var verdict := Judge(Some(c), session, switches, snap, f, portfolio, broker, cfg);
    VetoIsNamedExactlyWhen(Some(c), session, switches, snap, f, portfolio, broker, cfg, ZeroContracts);
    VetoIsNamedExactlyWhen(Some(c), session, switches, snap, f, portfolio, broker, cfg, LowConfidence);
    LowConfidenceIsStanding(c, portfolio, broker.equity, cfg);
    FloorIsAllowed(verdict.session, verdict.switches, snap, f, broker, cfg);
    NothingAtTheFloor(c, f, portfolio, broker, cfg);
  }

  lemma FloorIsAllowed(session: SessionRecord, switches: Switches, snap: Snapshot, f: Forecast, broker: BrokerView,
      cfg: RiskConfig)
    requires f.confidence >= cfg.trade.minConfidence
    ensures !Forbids(LowConfidence, session, switches, snap, f, broker, cfg)
  {
  }

  lemma LowConfidenceIsStanding(c: Candidate, portfolio: seq<Position>, equity: real, cfg: RiskConfig)
    ensures !Fails(LowConfidence, c, cfg.trade) && !Crowds(LowConfidence, c, portfolio, equity, cfg.portfolio)
  {
  }

  lemma NothingAtTheFloor(c: Candidate, f: Forecast, portfolio: seq<Position>, broker: BrokerView, cfg: RiskConfig)
    requires f.confidence <= cfg.trade.minConfidence
    ensures Contracts(c, f, portfolio, broker, cfg) == 0
  {
    hide AvailableRisk, Tightest, Caps;
    if DefinedLoss(c) {
      NothingWithoutConfidence(c.maxLoss.value, c.liquidityScore, broker.equity, f,
                               AvailableRisk(portfolio, broker.equity, cfg), cfg);
    }
  }

  lemma NothingWithoutConfidence(maxLoss: real, liquidity: real, equity: real, f: Forecast, available: real,
      cfg: RiskConfig)
    requires maxLoss > 0.0 && f.confidence <= cfg.trade.minConfidence
    ensures SizePosition(Finite(maxLoss), liquidity, equity, f, available, cfg).contracts == 0
  {
    assert QualityBudget(equity, f, liquidity, cfg) == 0.0 by {
      assert ConfidenceFactor(f.confidence, cfg.trade.minConfidence) == 0.0;
      hide Unit, ConfidenceFactor;
    }
    hide SizePosition;
    SizedExactlyWhen(maxLoss, liquidity, equity, f, available, cfg, 1);
  }

  // ---------------------------------------------------------------- sizing

  /** An amount at risk is within every cap. */
  ghost predicate WithinCaps(amount: real, liquidity: real, equity: real, f: Forecast, available: real,
      cfg: RiskConfig) {
    && amount <= Max(0.0, equity) * cfg.baseRiskFraction
                 * (ConfidenceFactor(f.confidence, cfg.trade.minConfidence) * Clipped(liquidity) * Clipped(f.stability)
                    * Clipped(Max(f.calibration, 0.000001)))
    && amount <= equity * cfg.trade.maxAccountFraction
    && amount <= cfg.trade.maxDollarRisk
    && (amount <= available || amount <= 0.0)
  }

  function Clipped(x: real): real { if x < 0.0 then 0.0 else if x > 1.0 then 1.0 else x }

  /** Sizing buys `n` contracts or more exactly when the contract limit allows them and their total loss
      is within the budget for the forecast's quality, the account fraction, the dollar cap and the risk
      the portfolio has left. */
  lemma SizedExactlyWhen(maxLoss: real, liquidity: real, equity: real, f: Forecast, available: real, cfg: RiskConfig,
      n: int)
    requires maxLoss > 0.0 && n >= 1
    ensures n <= SizePosition(Finite(maxLoss), liquidity, equity, f, available, cfg).contracts
       <==> n <= cfg.trade.maxContracts && WithinCaps(n as real * maxLoss, liquidity, equity, f, available, cfg)
  {
    hide SizePosition, Tightest;
    SizingIsGreatest(Finite(maxLoss), liquidity, equity, f, available, cfg, n);
    FitsIsWithin(n, maxLoss, liquidity, equity, f, available, cfg);
  }

  lemma FitsIsWithin(n: int, maxLoss: real, liquidity: real, equity: real, f: Forecast, available: real,
      cfg: RiskConfig)
    ensures Fits(n, maxLoss, Caps(equity, f, liquidity, available, cfg))
       <==> WithinCaps(n as real * maxLoss, liquidity, equity, f, available, cfg)
  {
    hide ConfidenceFactor;
    assert Clipped(liquidity) == Unit(liquidity) && Clipped(f.stability) == Unit(f.stability)
        && Clipped(Max(f.calibration, 0.000001)) == Unit(Max(f.calibration, 0.000001));
    hide Clipped, Unit;
    assert WithinCaps(n as real * maxLoss, liquidity, equity, f, available, cfg) <==>
      && n as real * maxLoss <= QualityBudget(equity, f, liquidity, cfg)
      && n as real * maxLoss <= AccountCap(equity, cfg.trade)
      && n as real * maxLoss <= cfg.trade.maxDollarRisk
      && n as real * maxLoss <= Max(0.0, available);
    hide QualityBudget, AccountCap, WithinCaps;
    CapsListed(equity, f, liquidity, available, cfg);
  }

  /** The constraint a sizing names: the contract cap exactly when one contract more than it would fit the
      others, and otherwise the first of the least caps. */
  lemma BindingIsFirstTightest(maxLoss: real, liquidity: real, equity: real, f: Forecast, available: real,
      cfg: RiskConfig)
    requires maxLoss > 0.0
    ensures var s, caps := SizePosition(Finite(maxLoss), liquidity, equity, f, available, cfg),
                           Caps(equity, f, liquidity, available, cfg);
      && (s.binding == ContractCap <==> Fits(cfg.trade.maxContracts + 1, maxLoss, caps))
      && (s.binding != ContractCap ==> FirstLeastNamed(caps, s.binding))
  {
    var caps := Caps(equity, f, liquidity, available, cfg);
    CapsListed(equity, f, liquidity, available, cfg);
    CapsAreNotContracts(equity, f, liquidity, available, cfg);
    hide Caps, Tightest, Fits, FirstLeastNamed;
    var i := TightestIsFirst(caps);
    assert caps[i].0 != ContractCap;
    FitsTightest(cfg.trade.maxContracts + 1, maxLoss, caps);
    FloorFits(Tightest(caps).1, maxLoss, cfg.trade.maxContracts + 1);
    assert FirstLeastNamed(caps, caps[i].0) by { NamedAt(caps, i); }
  }

  ghost predicate FirstLeastNamed(caps: seq<(Binding, real)>, name: Binding) {
    exists i :: 0 <= i < |caps| && IsFirstLeast(caps, i) && name == caps[i].0
  }

  lemma NamedAt(caps: seq<(Binding, real)>, i: nat)
    requires i < |caps| && IsFirstLeast(caps, i)
    ensures FirstLeastNamed(caps, caps[i].0)
  {
  }

  lemma CapsAreNotContracts(equity: real, f: Forecast, liquidity: real, available: real, cfg: RiskConfig)
    ensures forall c | c in Caps(equity, f, liquidity, available, cfg) :: c.0 != ContractCap
  {
    hide QualityBudget, AccountCap;
  }

  ghost predicate IsFirstLeast(caps: seq<(Binding, real)>, i: nat)
    requires i < |caps|
  {
    forall j | 0 <= j < |caps| :: caps[i].1 <= caps[j].1 && (j < i ==> caps[i].1 < caps[j].1)
  }

  lemma {:induction false} TightestIsFirst(caps: seq<(Binding, real)>) returns (i: nat)
    requires caps != []
    ensures i < |caps| && caps[i] == Tightest(caps) && IsFirstLeast(caps, i)
  {
    i := 0;
    if |caps| > 1 {
      var k := TightestIsFirst(caps[1..]);
      forall j | 1 <= j < |caps|
        ensures caps[k + 1].1 <= caps[j].1 && (j < k + 1 ==> caps[k + 1].1 < caps[j].1)
      {
        assert caps[1..][j - 1] == caps[j];
      }
      if caps[k + 1].1 < caps[0].1 { i := k + 1; }
    }
  }

  // ---------------------------------------------------------------- every veto

  ghost predicate SessionForbids(v: Veto, session: SessionRecord, snap: Snapshot, limits: SessionLimits) {
    || (v == TooCloseToClose && snap.minutesToClose < limits.minMinutesToClose)
    || (v == EventLockout && snap.hasBlockingEvent && limits.blockOnEvent)
    || (v == TradeLimitReached && session.tradesToday >= limits.maxTradesPerSession)
  }

  ghost predicate EnvironmentForbids(v: Veto, snap: Snapshot, f: Forecast, limits: TradeLimits) {
    || (v == PoorDataQuality && snap.dataQuality < limits.minDataQuality)
    || (v == LowConfidence && f.confidence < limits.minConfidence)
    || (v == ModelsDisagree && f.modelDisagreement > limits.maxModelDisagreement)
    || (v == TransitionLikely && f.transitionProbability >= 0.35)
    || (v == UnstableLikely && f.unstableProbability >= 0.35)
  }

  ghost predicate BrokerForbids(v: Veto, broker: BrokerView) {
    || (v == BrokerDown && !broker.connected)
    || (v == Unreconciled && !broker.reconciled)
    || (v == NoEquity && broker.equity <= 0.0)
  }

  /** The check behind a veto that does not look at a candidate fails. */
  ghost predicate Forbids(v: Veto, session: SessionRecord, switches: Switches, snap: Snapshot, f: Forecast,
      broker: BrokerView, cfg: RiskConfig) {
    || (v == KillSwitchActive && exists r :: r in switches)
    || SessionForbids(v, session, snap, cfg.session)
    || EnvironmentForbids(v, snap, f, cfg.trade)
    || BrokerForbids(v, broker)
  }

  /** The portfolio has no room for one contract of the candidate in the veto's respect. */
  ghost predicate Crowds(v: Veto, c: Candidate, portfolio: seq<Position>, equity: real, limits: PortfolioLimits) {
    match v
    case TooManyStrategies => OpenCount(portfolio) >= limits.maxOpenStrategies
    case TotalRiskExceeded =>
      c.maxLoss.Infinite? || TotalOpenRisk(portfolio) + c.maxLoss.value > limits.maxTotalOpenRisk
      || TotalOpenRisk(portfolio) + c.maxLoss.value > equity * limits.maxTotalRiskFraction
    case ExpirationRiskExceeded =>
      c.maxLoss.Infinite? || RiskForExpiration(portfolio, NearExpiry(c.strategy)) + c.maxLoss.value
                             > limits.maxSameExpirationRisk
    case CapitalExceeded => c.capitalUsage > equity * limits.maxCapitalFraction
    case _ => false
  }

  /** The candidate itself fails the veto's check; the per-trade limits are looked at only once its loss is
      defined. */
  ghost predicate Fails(v: Veto, c: Candidate, limits: TradeLimits) {
    match v
    case CandidateRejected => c.rejected
    case MaxLossUndefined => c.maxLoss.Infinite? || c.maxLoss.value <= 0.0
    case _ => IsTradeVeto(v) && Breaks(c, v, limits) && DefinedLoss(c)
  }

  lemma StandingNamesForbidden(session: SessionRecord, switches: Switches, snap: Snapshot, f: Forecast,
      broker: BrokerView, cfg: RiskConfig, v: Veto)
    ensures v in StandingVetoes(session, switches, snap, f, broker, cfg)
       <==> Forbids(v, session, switches, snap, f, broker, cfg)
  {
    SessionNames(session, snap, cfg, v);
    EnvironmentNames(snap, f, cfg, v);
    BrokerNames(broker, v);
    StandingSplits(session, switches, snap, f, broker, cfg, v);
    assert switches != map[] <==> exists r :: r in switches;
    hide SessionVetoes, EnvironmentVetoes, BrokerVetoes, StandingVetoes, SessionForbids, EnvironmentForbids,
      BrokerForbids;
  }

  lemma StandingSplits(session: SessionRecord, switches: Switches, snap: Snapshot, f: Forecast, broker: BrokerView,
      cfg: RiskConfig, v: Veto)
    ensures v in StandingVetoes(session, switches, snap, f, broker, cfg) <==>
      || (v == KillSwitchActive && switches != map[])
      || v in SessionVetoes(session, snap, cfg) || v in EnvironmentVetoes(snap, f, cfg) || v in BrokerVetoes(broker)
  {
    hide SessionVetoes, EnvironmentVetoes, BrokerVetoes, When;
  }

  lemma BrokerNames(broker: BrokerView, v: Veto)
    ensures v in BrokerVetoes(broker) <==> BrokerForbids(v, broker)
  {
    hide When;
  }

  lemma SessionNames(session: SessionRecord, snap: Snapshot, cfg: RiskConfig, v: Veto)
    ensures v in SessionVetoes(session, snap, cfg) <==> SessionForbids(v, session, snap, cfg.session)
  {
    hide When;
  }

  lemma EnvironmentNames(snap: Snapshot, f: Forecast, cfg: RiskConfig, v: Veto)
    ensures v in EnvironmentVetoes(snap, f, cfg) <==> EnvironmentForbids(v, snap, f, cfg.trade)
  {
    hide When;
  }

  lemma PortfolioNamesCrowded(c: Candidate, portfolio: seq<Position>, equity: real, limits: PortfolioLimits, v: Veto)
    ensures v in PortfolioVetoes(c, portfolio, equity, limits) <==> Crowds(v, c, portfolio, equity, limits)
  {
    hide When, OpenCount, TotalOpenRisk, RiskForExpiration, NearExpiry;
  }

  lemma CandidateNamesFailures(c: Candidate, cfg: RiskConfig, v: Veto)
    ensures v in CandidateVetoes(c, cfg) <==> Fails(v, c, cfg.trade)
  {
    if IsTradeVeto(v) {
      CandidateReports(c, v, cfg);
      TradeVetoesAreNeither(v);
      hide Breaks, CandidateVetoes;
    } else {
      OnlyTradeVetoes(c, cfg.trade, v);
      hide SoundCandidateVetoes, Breaks, When, IsTradeVeto;
    }
  }

  lemma OnlyTradeVetoes(c: Candidate, limits: TradeLimits, v: Veto)
    requires !IsTradeVeto(v)
    ensures c.maxLoss.Finite? ==> v !in SoundCandidateVetoes(c, c.maxLoss.value, limits)
  {
    if c.maxLoss.Finite? {
      EconomicReports(c, c.maxLoss.value, v, limits);
      StructureReports(c, v, limits);
      ExposureReports(c, v, limits);
      hide EconomicVetoes, StructureVetoes, ExposureVetoes, Breaks;
    }
  }

  /** A verdict names a veto exactly when the check behind it fails on the rolled session and the updated
      switches. */
  lemma VetoIsNamedExactlyWhen(c: Option<Candidate>, session: SessionRecord, switches: Switches, snap: Snapshot,
      f: Forecast, portfolio: seq<Position>, broker: BrokerView, cfg: RiskConfig, v: Veto)
    ensures var verdict := Judge(c, session, switches, snap, f, portfolio, broker, cfg);
      v in verdict.decision.vetoes <==>
        || Forbids(v, verdict.session, verdict.switches, snap, f, broker, cfg)
        || (c.None? && v == NoCandidate)
        || (c.Some? && (Fails(v, c.value, cfg.trade) || Crowds(v, c.value, portfolio, broker.equity, cfg.portfolio)))
        || (c.Some? && v == ZeroContracts && Contracts(c.value, f, portfolio, broker, cfg) == 0)
  {
    hide Judge, SizePosition, SwitchesAfter, AvailableRisk, StandingVetoes, PortfolioVetoes, CandidateVetoes, Forbids,
      Fails, Crowds;
    var verdict := Judge(c, session, switches, snap, f, portfolio, broker, cfg);
    StandingNamesForbidden(verdict.session, verdict.switches, snap, f, broker, cfg, v);
    VetoesAre(c, session, switches, snap, f, portfolio, broker, cfg);
    if c.Some? {
      CandidateNamesFailures(c.value, cfg, v);
      PortfolioNamesCrowded(c.value, portfolio, broker.equity, cfg.portfolio, v);
      InFour(v, StandingVetoes(verdict.session, verdict.switches, snap, f, broker, cfg), CandidateVetoes(c.value, cfg),
             PortfolioVetoes(c.value, portfolio, broker.equity, cfg.portfolio),
             When(Contracts(c.value, f, portfolio, broker, cfg) < 1, ZeroContracts));
    }
    hide When;
  }

  /** The contracts sizing buys of a candidate. */
  function Contracts(c: Candidate, f: Forecast, portfolio: seq<Position>, broker: BrokerView, cfg: RiskConfig): nat {
    var available := AvailableRisk(portfolio, broker.equity, cfg);
    SizePosition(c.maxLoss, c.liquidityScore, broker.equity, f, available, cfg).contracts
  }

  lemma InFour(v: Veto, a: seq<Veto>, b: seq<Veto>, c: seq<Veto>, d: seq<Veto>)
    ensures v in a + b + c + d <==> v in a || v in b || v in c || v in d
  {
  }

  lemma VetoesAre(c: Option<Candidate>, session: SessionRecord, switches: Switches, snap: Snapshot, f: Forecast,
      portfolio: seq<Position>, broker: BrokerView, cfg: RiskConfig)
    ensures var verdict := Judge(c, session, switches, snap, f, portfolio, broker, cfg);
      var standing := StandingVetoes(verdict.session, verdict.switches, snap, f, broker, cfg);
      verdict.decision.vetoes ==
        if c.None? then standing + [NoCandidate]
        else standing + CandidateVetoes(c.value, cfg)
             + PortfolioVetoes(c.value, portfolio, broker.equity, cfg.portfolio)
             + When(Contracts(c.value, f, portfolio, broker, cfg) < 1, ZeroContracts)
  {
    hide SizePosition, SwitchesAfter, AvailableRisk, StandingVetoes, PortfolioVetoes, CandidateVetoes, PriceLimit, When,
      SessionRecord.RolledTo;
  }

  /** A refusal grants no contracts and no price. */
  lemma RefusalGrantsNothing(c: Option<Candidate>, session: SessionRecord, switches: Switches, snap: Snapshot,
      f: Forecast, portfolio: seq<Position>, broker: BrokerView, cfg: RiskConfig)
    ensures var decision := Judge(c, session, switches, snap, f, portfolio, broker, cfg).decision;
      && (decision.approved <==> forall v: Veto :: v !in decision.vetoes)
      && (!decision.approved ==> decision.maxContracts == 0 && decision.priceLimit == 0.0)
  {
    var decision := Judge(c, session, switches, snap, f, portfolio, broker, cfg).decision;
    hide SizePosition, SwitchesAfter, AvailableRisk, StandingVetoes, PortfolioVetoes, CandidateVetoes, PriceLimit, When,
      SessionRecord.RolledTo;
    assert decision.approved <==> decision.vetoes == [];
    hide Judge;
    if decision.vetoes != [] { assert decision.vetoes[0] in decision.vetoes; }
  }
}
