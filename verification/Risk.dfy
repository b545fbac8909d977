/** Limits, kill switches, sizing and the risk engine's verdict. */
module Risk {
  import opened Options
  import opened Market
  import opened Positions
  import opened Payoff
  import opened Vectors

  // ---------------------------------------------------------------- limits

  datatype TradeLimits = TradeLimits(maxAccountFraction: real, maxDollarRisk: real, maxContracts: int, maxDebit: real,
    maxSpreadWidth: real, minReturnOnRisk: real, minLiquidity: real, maxSpreadRatio: real, maxSlippageFraction: real,
    maxLegs: int, maxGamma: real, maxVega: real, maxTheta: real, maxAssignmentRisk: real, minConfidence: real,
    maxModelDisagreement: real, minDataQuality: real)

  datatype PortfolioLimits = PortfolioLimits(maxOpenStrategies: int, maxTotalOpenRisk: real, maxTotalRiskFraction: real,
    maxSameExpirationRisk: real, maxCapitalFraction: real)

  datatype SessionLimits = SessionLimits(dailyLossLimit: real, dailyLossFraction: real, maxConsecutiveLosses: int,
    maxDrawdownFraction: real, maxTradesPerSession: int, minMinutesToClose: real, blockOnEvent: bool)

  datatype RiskConfig = RiskConfig(trade: TradeLimits, portfolio: PortfolioLimits, session: SessionLimits,
    baseRiskFraction: real, maxSlippageRatio: real, minCalibration: real)

  datatype Greeks = Greeks(gamma: real, vega: real, theta: real)

  datatype Candidate = Candidate(strategy: Strategy, entryPrice: real, maxProfit: Bound, maxLoss: Bound, greeks: Greeks,
    liquidityScore: real, worstSpreadRatio: real, expectedSlippage: real, returnOnRisk: real, assignmentRisk: real,
    exitPlan: ExitPlan, capitalUsage: real, rejected: bool)

  datatype Forecast = Forecast(confidence: real, modelDisagreement: real, calibration: real, stability: real,
    transitionProbability: real, unstableProbability: real)

  /** The broker as the risk engine sees it. */
  datatype BrokerView = BrokerView(connected: bool, equity: real, reconciled: bool)

  // ---------------------------------------------------------------- session accounting

  datatype SessionRecord = SessionRecord(tradingDay: Option<int>, realizedPnl: real, peakEquity: real, tradesToday: nat,
    consecutiveLosses: nat, slippage: seq<(real, real)>)
  {
    function RolledTo(day: int, equity: real): SessionRecord {
      if tradingDay == Some(day) then this
      else this.(tradingDay := Some(day), realizedPnl := 0.0, tradesToday := 0, peakEquity := Max(peakEquity, equity))
    }

    function WithTrade(pnl: real, equity: real): SessionRecord {
      this.(realizedPnl := realizedPnl + pnl, tradesToday := tradesToday + 1,
            consecutiveLosses := if pnl < 0.0 then consecutiveLosses + 1 else 0, peakEquity := Max(peakEquity, equity))
    }

    function WithSlippage(expected: real, realized: real): SessionRecord {
      var samples := slippage + [(expected, realized)];
      this.(slippage := if |samples| > 200 then samples[1..] else samples)
    }

    function Drawdown(equity: real): real {
      if peakEquity <= 0.0 then 0.0 else Max(0.0, (peakEquity - equity) / peakEquity)
    }

    function SlippageRatio(): real {
      if slippage == [] || SumFirst(slippage) <= 0.0 then 1.0 else SumSecond(slippage) / SumFirst(slippage)
    }
  }

  const FRESH_SESSION := SessionRecord(None, 0.0, 0.0, 0, 0, [])

  function SumFirst(s: seq<(real, real)>): real { if s == [] then 0.0 else s[0].0 + SumFirst(s[1..]) }

  function SumSecond(s: seq<(real, real)>): real { if s == [] then 0.0 else s[0].1 + SumSecond(s[1..]) }

  class SessionState {
    var tradingDay: Option<int>
    var realizedPnl: real
    var peakEquity: real
    var tradesToday: nat
    var consecutiveLosses: nat
    var slippageSamples: seq<(real, real)>

    function View(): SessionRecord
      reads this
    {
      SessionRecord(tradingDay, realizedPnl, peakEquity, tradesToday, consecutiveLosses, slippageSamples)
    }

    constructor ()
      ensures View() == FRESH_SESSION
    {
      tradingDay, realizedPnl, peakEquity, tradesToday, consecutiveLosses, slippageSamples := None, 0.0, 0.0, 0, 0, [];
    }

    method RollTo(day: int, equity: real)
      modifies this
      ensures View() == old(View()).RolledTo(day, equity)
    {
      if tradingDay == Some(day) {
        return;
      }
      tradingDay := Some(day);
      realizedPnl := 0.0;
      tradesToday := 0;
      peakEquity := Max(peakEquity, equity);
    }

    method RecordTrade(pnl: real, equity: real)
      modifies this
      ensures View() == old(View()).WithTrade(pnl, equity)
    {
      realizedPnl := realizedPnl + pnl;
      tradesToday := tradesToday + 1;
      consecutiveLosses := if pnl < 0.0 then consecutiveLosses + 1 else 0;
      peakEquity := Max(peakEquity, equity);
    }

    method RecordSlippage(expected: real, realized: real)
      modifies this
      ensures View() == old(View()).WithSlippage(expected, realized)
    {
      slippageSamples := slippageSamples + [(expected, realized)];
      if |slippageSamples| > 200 {
        slippageSamples := slippageSamples[1..];
      }
    }
  }

  // ---------------------------------------------------------------- what the session counters mean

  datatype SessionEvent = Roll(day: int, equity: real) | Trade(pnl: real, equity: real)
    | Slip(expected: real, realized: real)

  function Apply(s: SessionRecord, e: SessionEvent): SessionRecord {
    match e
    case Roll(day, equity) => s.RolledTo(day, equity)
    case Trade(pnl, equity) => s.WithTrade(pnl, equity)
    case Slip(expected, realized) => s.WithSlippage(expected, realized)
  }

  function ReplayFrom(s: SessionRecord, log: seq<SessionEvent>): SessionRecord {
    if log == [] then s else Apply(ReplayFrom(s, log[..|log| - 1]), log[|log| - 1])
  }

  function Replay(log: seq<SessionEvent>): SessionRecord { ReplayFrom(FRESH_SESSION, log) }

  function TradesOf(log: seq<SessionEvent>): seq<real> {
    if log == [] then []
    else TradesOf(log[..|log| - 1]) + if log[|log| - 1].Trade? then [log[|log| - 1].pnl] else []
  }

  /** The last `n` results are all losses and the one before them, if any, is not. */
  ghost predicate TrailingLosses(results: seq<real>, n: nat) {
    && n <= |results|
    && (forall i | |results| - n <= i < |results| :: results[i] < 0.0)
    && (n < |results| ==> results[|results| - n - 1] >= 0.0)
  }

  /** `consecutive_losses` is the length of the trailing run of losing trades. */
  lemma {:induction false} ConsecutiveLossesAreTrailing(log: seq<SessionEvent>)
    ensures TrailingLosses(TradesOf(log), Replay(log).consecutiveLosses)
  {
    if log != [] {
      ConsecutiveLossesAreTrailing(log[..|log| - 1]);
    }
  }

  /** The day in force after a log is the day of its last roll. */
  function LastDay(log: seq<SessionEvent>): Option<int> {
    if log == [] then None
    else if log[|log| - 1].Roll? then Some(log[|log| - 1].day)
    else LastDay(log[..|log| - 1])
  }

  /** Number of leading events up to and including the last change of day. */
  function LastRoll(log: seq<SessionEvent>): (i: nat)
    ensures i <= |log|
  {
    if log == [] then 0
    else
      var front, e := log[..|log| - 1], log[|log| - 1];
      if e.Roll? && LastDay(front) != Some(e.day) then |log| else LastRoll(front)
  }

  function PnlSum(results: seq<real>): real {
    if results == [] then 0.0 else PnlSum(results[..|results| - 1]) + results[|results| - 1]
  }

  /** `realized_pnl` and `trades_today` sum and count the trades recorded since the last change of day. */
  lemma {:induction false} DailyTotalsAreSinceLastRoll(log: seq<SessionEvent>)
    ensures Replay(log).tradingDay == LastDay(log)
    ensures Replay(log).realizedPnl == PnlSum(TradesOf(log[LastRoll(log)..]))
    ensures Replay(log).tradesToday == |TradesOf(log[LastRoll(log)..])|
  {
    if log != [] {
      var front, e := log[..|log| - 1], log[|log| - 1];
      DailyTotalsAreSinceLastRoll(front);
      if e.Roll? && LastDay(front) != Some(e.day) {
        assert log[|log|..] == [];
      } else {
        var i := LastRoll(front);
        assert LastRoll(log) == i;
        TradesGrow(log, i);
        hide TradesOf, PnlSum, LastRoll;
        if e.Trade? {
          SumAppends(TradesOf(front[i..]), e.pnl);
        }
      }
    }
  }

  lemma TradesGrow(log: seq<SessionEvent>, i: nat)
    requires log != [] && i < |log|
    ensures var front, e := log[..|log| - 1], log[|log| - 1];
      TradesOf(log[i..]) == if e.Trade? then TradesOf(front[i..]) + [e.pnl] else TradesOf(front[i..])
  {
    assert log[i..][..|log[i..]| - 1] == log[..|log| - 1][i..];
  }

  lemma SumAppends(results: seq<real>, x: real)
    ensures PnlSum(results + [x]) == PnlSum(results) + x
  {
    assert (results + [x])[..|results|] == results;
  }

  /** Equity was looked at by event `i`: at a trade, or at a roll that changed the day. */
  predicate Observes(log: seq<SessionEvent>, i: nat)
    requires i < |log|
  {
    log[i].Trade? || (log[i].Roll? && LastDay(log[..i]) != Some(log[i].day))
  }

  /** `peak_equity` is the greatest equity observed, and zero before any. */
  lemma {:induction false} PeakIsGreatestObserved(log: seq<SessionEvent>)
    ensures forall i | 0 <= i < |log| && Observes(log, i) :: log[i].equity <= Replay(log).peakEquity
    ensures Replay(log).peakEquity == 0.0 || exists i ::
      0 <= i < |log| && Observes(log, i) && log[i].equity == Replay(log).peakEquity
    ensures Replay(log).peakEquity >= 0.0
  {
    if log != [] {
      var front, n := log[..|log| - 1], |log| - 1;
      PeakIsGreatestObserved(front);
      PeakStep(log);
      forall i | 0 <= i < n ensures Observes(log, i) == Observes(front, i) {
        ObservesInFront(log, i);
      }
      hide Observes, Replay, ReplayFrom;
      if Replay(front).peakEquity != 0.0 {
        var i :| 0 <= i < n && Observes(front, i) && front[i].equity == Replay(front).peakEquity;
        assert Observes(log, i) && log[i] == front[i];
      }
    }
  }

  lemma ObservesInFront(log: seq<SessionEvent>, i: nat)
    requires i < |log| - 1
    ensures Observes(log, i) == Observes(log[..|log| - 1], i)
  {
    assert log[..i] == log[..|log| - 1][..i];
  }

  /** One event raises the peak to its equity if it observes it, and otherwise leaves it. */
  lemma PeakStep(log: seq<SessionEvent>)
    requires log != []
    ensures var front, n := log[..|log| - 1], |log| - 1;
      Replay(log).peakEquity == if Observes(log, n) then Max(Replay(front).peakEquity, log[n].equity)
      else Replay(front).peakEquity
  {
    hide TradesOf, PnlSum, LastRoll;
    DailyTotalsAreSinceLastRoll(log[..|log| - 1]);
  }

  /** Expected and realised slippage of every fill recorded. */
  function SlipsOf(log: seq<SessionEvent>): seq<(real, real)> {
    if log == [] then []
    else
      var e := log[|log| - 1];
      SlipsOf(log[..|log| - 1]) + if e.Slip? then [(e.expected, e.realized)] else []
  }

  /** The last `n` entries, or all of them. */
  function Recent<T>(s: seq<T>, n: nat): seq<T> { if |s| <= n then s else s[|s| - n..] }

  /** `slippage_samples` are the last 200 samples recorded. */
  lemma {:induction false} SamplesAreRecent(log: seq<SessionEvent>)
    ensures Replay(log).slippage == Recent(SlipsOf(log), 200)
  {
    if log != [] {
      SamplesAreRecent(log[..|log| - 1]);
    }
  }

  // ---------------------------------------------------------------- kill switches

  datatype SwitchReason = Manual | DataQuality | BrokerState | DailyLoss | Drawdown | Slippage | Calibration
    | ModelDisagreement | AssignmentSwitch | EventSwitch | MarketHalt | ConsecutiveLosses

  type Switches = map<SwitchReason, string>

  /** Tripping latches: the first detail stays. */
  function Tripped(s: Switches, r: SwitchReason, detail: string): Switches { if r in s then s else s[r := detail] }

  function TripIf(s: Switches, condition: bool, r: SwitchReason, detail: string): Switches {
    if condition then Tripped(s, r, detail) else s
  }

  /** Every switch of `a` is still active in `b`, with its detail. */
  ghost predicate Latched(a: Switches, b: Switches) {
    forall r | r in a :: r in b && b[r] == a[r]
  }

  class KillSwitch {
    var active: Switches

    constructor ()
      ensures active == map[]
    {
      active := map[];
    }

    method Trip(r: SwitchReason, detail: string)
      modifies this
      ensures active == Tripped(old(active), r, detail)
    {
      if r !in active {
        active := active[r := detail];
      }
    }

    method Reset(r: Option<SwitchReason>)
      modifies this
      ensures active == if r.None? then map[] else old(active) - {r.value}
    {
      active := if r.None? then map[] else active - {r.value};
    }
  }

  // ---------------------------------------------------------------- sizing

  const MIN_CONFIDENCE_FACTOR := 0.5

  function ConfidenceFactor(confidence: real, floor: real): real {
    if confidence <= floor then 0.0
    else if floor >= 1.0 then 1.0
    else MIN_CONFIDENCE_FACTOR + (1.0 - MIN_CONFIDENCE_FACTOR) * ((Min(confidence, 1.0) - floor) / (1.0 - floor))
  }

  function Unit(x: real): real { Min(Max(x, 0.0), 1.0) }

  datatype Binding = UndefinedRisk | BaseBudget | AccountFraction | DollarCap | PortfolioRemaining | ContractCap

  datatype Sizing = Sizing(contracts: nat, riskPerContract: Bound, binding: Binding)

  /** Dollars the formula grants at a given liquidity. */
  function QualityBudget(equity: real, f: Forecast, liquidity: real, cfg: RiskConfig): real {
    Max(0.0, equity) * cfg.baseRiskFraction
    * (ConfidenceFactor(f.confidence, cfg.trade.minConfidence) * Unit(liquidity) * Unit(f.stability)
       * Unit(Max(f.calibration, 0.000001)))
  }

  /** The share of equity one trade may risk. */
  function AccountCap(equity: real, limits: TradeLimits): real { equity * limits.maxAccountFraction }

  /** The hard caps a position's total risk must fit, in order. */
  function Caps(equity: real, f: Forecast, liquidity: real, available: real, cfg: RiskConfig): seq<(Binding, real)> {
    [(BaseBudget, QualityBudget(equity, f, liquidity, cfg)),
     (AccountFraction, AccountCap(equity, cfg.trade)),
     (DollarCap, cfg.trade.maxDollarRisk),
     (PortfolioRemaining, Max(0.0, available))]
  }

  /** First entry with the least value. */
  function Tightest(caps: seq<(Binding, real)>): (c: (Binding, real))
    requires caps != []
    ensures c in caps && forall d | d in caps :: c.1 <= d.1
  {
    if |caps| == 1 then caps[0]
    else
      var rest := Tightest(caps[1..]);
      assert forall d | d in caps :: d == caps[0] || d in caps[1..];
      if rest.1 < caps[0].1 then rest else caps[0]
  }

  function SizePosition(maxLoss: Bound, liquidity: real, equity: real, f: Forecast, available: real,
      cfg: RiskConfig): Sizing {
    if maxLoss.Infinite? || maxLoss.value <= 0.0 then Sizing(0, maxLoss, UndefinedRisk)
    else
      var (name, allowed) := Tightest(Caps(equity, f, liquidity, available, cfg));
      var contracts := (allowed / maxLoss.value).Floor;
      if contracts > cfg.trade.maxContracts then
        Sizing(if cfg.trade.maxContracts > 0 then cfg.trade.maxContracts else 0, maxLoss, ContractCap)
      else Sizing(if contracts > 0 then contracts else 0, maxLoss, name)
  }

  /** `n` contracts of the given risk fit under every cap. */
  ghost predicate Fits(n: int, risk: real, caps: seq<(Binding, real)>) {
    forall c | c in caps :: n as real * risk <= c.1
  }

  lemma FloorFits(allowed: real, risk: real, n: int)
    requires risk > 0.0
    ensures n as real * risk <= allowed <==> n <= (allowed / risk).Floor
  {
    var q := allowed / risk;
    assert q * risk == allowed;
    if n <= q.Floor {
      LineMonotone(Line(0.0, risk), n as real, q);
    }
    if n as real * risk <= allowed && n as real > q {
      StrictScale(q, n as real, risk);
    }
  }

  lemma StrictScale(a: real, b: real, k: real)
    requires a < b && k > 0.0
    ensures a * k < b * k
  {
    assert (b - a) * k > 0.0;
  }

  lemma FitsTightest(n: int, risk: real, caps: seq<(Binding, real)>)
    requires caps != []
    ensures Fits(n, risk, caps) <==> n as real * risk <= Tightest(caps).1
  {
  }

  /** Sizing returns the greatest number of contracts, up to the contract cap, whose total risk fits
      every cap; zero when not even one fits. */
  lemma SizingIsGreatest(maxLoss: Bound, liquidity: real, equity: real, f: Forecast, available: real, cfg: RiskConfig,
      n: int)
    requires maxLoss.Finite? && maxLoss.value > 0.0
    ensures n >= 1 ==>
      (n <= SizePosition(maxLoss, liquidity, equity, f, available, cfg).contracts <==>
       n <= cfg.trade.maxContracts && Fits(n, maxLoss.value, Caps(equity, f, liquidity, available, cfg)))
  {
    hide Caps, Tightest;
    var caps := Caps(equity, f, liquidity, available, cfg);
    assert caps != [] by { CapsListed(equity, f, liquidity, available, cfg); }
    FitsTightest(n, maxLoss.value, caps);
    FloorFits(Tightest(caps).1, maxLoss.value, n);
  }

  lemma CapsListed(equity: real, f: Forecast, liquidity: real, available: real, cfg: RiskConfig)
    ensures |Caps(equity, f, liquidity, available, cfg)| == 4
    ensures (BaseBudget, QualityBudget(equity, f, liquidity, cfg)) in Caps(equity, f, liquidity, available, cfg)
    ensures (AccountFraction, AccountCap(equity, cfg.trade)) in Caps(equity, f, liquidity, available, cfg)
    ensures (DollarCap, cfg.trade.maxDollarRisk) in Caps(equity, f, liquidity, available, cfg)
    ensures (PortfolioRemaining, Max(0.0, available)) in Caps(equity, f, liquidity, available, cfg)
  {
    hide QualityBudget, AccountCap;
    FourAreListed((BaseBudget, QualityBudget(equity, f, liquidity, cfg)),
                  (AccountFraction, AccountCap(equity, cfg.trade)),
                  (DollarCap, cfg.trade.maxDollarRisk), (PortfolioRemaining, Max(0.0, available)));
  }

  lemma FourAreListed(a: (Binding, real), b: (Binding, real), c: (Binding, real), d: (Binding, real))
    ensures a in [a, b, c, d] && b in [a, b, c, d] && c in [a, b, c, d] && d in [a, b, c, d]
  {
    var all := [a, b, c, d];
    assert all[0] == a && all[1] == b && all[2] == c && all[3] == d;
  }

  /** The least cap. */
  function Tight(liquidity: real, equity: real, f: Forecast, available: real, cfg: RiskConfig): real {
    CapsListed(equity, f, liquidity, available, cfg);
    Tightest(Caps(equity, f, liquidity, available, cfg)).1
  }

  /** Total risk of the contracts sizing buys. */
  function SizedRisk(maxLoss: real, liquidity: real, equity: real, f: Forecast, available: real,
      cfg: RiskConfig): real {
    SizePosition(Finite(maxLoss), liquidity, equity, f, available, cfg).contracts as real * maxLoss
  }

  lemma SizedContracts(maxLoss: real, liquidity: real, equity: real, f: Forecast, available: real, cfg: RiskConfig,
      n: int)
    requires maxLoss > 0.0 && n >= 1
    ensures n <= SizePosition(Finite(maxLoss), liquidity, equity, f, available, cfg).contracts <==>
      n <= cfg.trade.maxContracts && n as real * maxLoss <= Tight(liquidity, equity, f, available, cfg)
  {
    hide SizePosition, Caps, Tightest;
    CapsListed(equity, f, liquidity, available, cfg);
    SizingIsGreatest(Finite(maxLoss), liquidity, equity, f, available, cfg, n);
    FitsTightest(n, maxLoss, Caps(equity, f, liquidity, available, cfg));
  }

  /** A check that adds the loss of one contract to what is held protects a room if and only if sizing
      buys at most one contract, or no cap exceeds the room, or there is no room at all. */
  lemma OneContractCheckHoldsExactlyWhen(room: real, liquidity: real, equity: real, f: Forecast, available: real,
      cfg: RiskConfig)
    ensures (forall maxLoss: real | 0.0 < maxLoss <= room ::
               SizedRisk(maxLoss, liquidity, equity, f, available, cfg) <= room)
        <==> cfg.trade.maxContracts <= 1 || Tight(liquidity, equity, f, available, cfg) <= room || room <= 0.0
  {
    hide SizePosition, Tight;
    var tight := Tight(liquidity, equity, f, available, cfg);
    if cfg.trade.maxContracts <= 1 || tight <= room || room <= 0.0 {
      forall maxLoss: real | 0.0 < maxLoss <= room
        ensures SizedRisk(maxLoss, liquidity, equity, f, available, cfg) <= room
      {
        var n := SizePosition(Finite(maxLoss), liquidity, equity, f, available, cfg).contracts;
        if n >= 1 {
          SizedContracts(maxLoss, liquidity, equity, f, available, cfg, n);
        }
      }
    } else {
      var maxLoss := Min(room, tight / 2.0);
      var n := SizePosition(Finite(maxLoss), liquidity, equity, f, available, cfg).contracts;
      SizedContracts(maxLoss, liquidity, equity, f, available, cfg, 2);
      assert n >= 2 by { assert 2 as real * maxLoss <= tight; }
      MoreContractsRiskMore(2, n, maxLoss);
      assert 2 as real * maxLoss > room;
      assert 0.0 < maxLoss <= room && SizedRisk(maxLoss, liquidity, equity, f, available, cfg) > room;
    }
  }

  lemma MoreContractsRiskMore(n: int, m: int, risk: real)
    requires n <= m && risk > 0.0
    ensures n as real * risk <= m as real * risk
  {
    ProductNonNegative((m - n) as real, risk);
  }

  // ---------------------------------------------------------------- the budget handed to the optimizer

  const BUDGET_LIQUIDITY := 0.8

  function AvailableRisk(portfolio: seq<Position>, equity: real, cfg: RiskConfig): real {
    Max(0.0,
        Min(cfg.portfolio.maxTotalOpenRisk, equity * cfg.portfolio.maxTotalRiskFraction) - TotalOpenRisk(portfolio))
  }

  function RiskBudget(portfolio: seq<Position>, equity: real, f: Forecast, cfg: RiskConfig): real {
    Min(Min(QualityBudget(equity, f, BUDGET_LIQUIDITY, cfg), AccountCap(equity, cfg.trade)),
        Min(cfg.trade.maxDollarRisk, AvailableRisk(portfolio, equity, cfg)))
  }

  /** The caps that do not depend on the candidate's liquidity. */
  function OtherCaps(portfolio: seq<Position>, equity: real, cfg: RiskConfig): real {
    Min(AccountCap(equity, cfg.trade), Min(cfg.trade.maxDollarRisk, AvailableRisk(portfolio, equity, cfg)))
  }

  /** Sizing would buy at least one contract of this risk at this liquidity. */
  predicate Sizable(maxLoss: real, liquidity: real, portfolio: seq<Position>, equity: real, f: Forecast,
      cfg: RiskConfig) {
    SizePosition(Finite(maxLoss), liquidity, equity, f, AvailableRisk(portfolio, equity, cfg), cfg).contracts >= 1
  }

  lemma SizableMeansAffordable(maxLoss: real, liquidity: real, portfolio: seq<Position>, equity: real, f: Forecast,
      cfg: RiskConfig)
    requires maxLoss > 0.0
    ensures Sizable(maxLoss, liquidity, portfolio, equity, f, cfg) <==>
      cfg.trade.maxContracts >= 1 && maxLoss <= QualityBudget(equity, f, liquidity, cfg)
      && maxLoss <= OtherCaps(portfolio, equity, cfg)
  {
    hide QualityBudget, AvailableRisk, SizePosition, Tightest;
    var available := AvailableRisk(portfolio, equity, cfg);
    assert available >= 0.0 by { AvailableIsNonNegative(portfolio, equity, cfg); }
    SizingIsGreatest(Finite(maxLoss), liquidity, equity, f, available, cfg, 1);
    var caps := Caps(equity, f, liquidity, available, cfg);
    assert caps[0].1 == QualityBudget(equity, f, liquidity, cfg) && caps[1].1 == AccountCap(equity, cfg.trade)
        && caps[2].1 == cfg.trade.maxDollarRisk && caps[3].1 == available;
    assert Fits(1, maxLoss, caps) <==>
      maxLoss <= caps[0].1 && maxLoss <= caps[1].1 && maxLoss <= caps[2].1 && maxLoss <= caps[3].1;
  }

  lemma AvailableIsNonNegative(portfolio: seq<Position>, equity: real, cfg: RiskConfig)
    ensures AvailableRisk(portfolio, equity, cfg) >= 0.0
  {
  }

  function QualityAtFull(equity: real, f: Forecast, cfg: RiskConfig): real {
    Max(0.0, equity) * cfg.baseRiskFraction
    * (ConfidenceFactor(f.confidence, cfg.trade.minConfidence) * Unit(f.stability) * Unit(Max(f.calibration, 0.000001)))
  }

  lemma QualityScalesWithLiquidity(equity: real, f: Forecast, liquidity: real, cfg: RiskConfig)
    ensures QualityBudget(equity, f, liquidity, cfg) == QualityAtFull(equity, f, cfg) * Unit(liquidity)
  {
    hide ConfidenceFactor, Unit;
    Regroup(Max(0.0, equity) * cfg.baseRiskFraction, ConfidenceFactor(f.confidence, cfg.trade.minConfidence),
            Unit(liquidity), Unit(f.stability), Unit(Max(f.calibration, 0.000001)));
  }

  lemma Regroup(b: real, c: real, l: real, s: real, q: real)
    ensures b * (c * l * s * q) == (b * (c * s * q)) * l
  {
    assert c * l * s * q == (c * s * q) * l;
    Associate(b, c * s * q, l);
  }

  lemma Associate(a: real, b: real, c: real)
    ensures a * (b * c) == (a * b) * c
  {
  }

  /** The pre-ranking filter discards nothing that sizing would accept, whatever its risk, exactly
      when the candidate is no more liquid than the placeholder, or another cap already binds, or
      the formula grants nothing. */
  lemma BudgetIsGenerousExactlyWhen(liquidity: real, portfolio: seq<Position>, equity: real, f: Forecast,
      cfg: RiskConfig)
    requires cfg.trade.maxContracts >= 1
    ensures (forall maxLoss: real | maxLoss > 0.0 && Sizable(maxLoss, liquidity, portfolio, equity, f, cfg) ::
               maxLoss <= RiskBudget(portfolio, equity, f, cfg))
        <==> (|| liquidity <= BUDGET_LIQUIDITY
              || QualityAtFull(equity, f, cfg) <= 0.0
              || OtherCaps(portfolio, equity, cfg) <= QualityBudget(equity, f, BUDGET_LIQUIDITY, cfg)
              || OtherCaps(portfolio, equity, cfg) <= 0.0)
  {
    hide QualityBudget, AvailableRisk, SizePosition, QualityAtFull, Sizable;
    var other := OtherCaps(portfolio, equity, cfg);
    var granted := QualityBudget(equity, f, liquidity, cfg);
    var placeholder := QualityBudget(equity, f, BUDGET_LIQUIDITY, cfg);
    QualityScalesWithLiquidity(equity, f, liquidity, cfg);
    QualityScalesWithLiquidity(equity, f, BUDGET_LIQUIDITY, cfg);
    forall maxLoss: real | maxLoss > 0.0
      ensures Sizable(maxLoss, liquidity, portfolio, equity, f, cfg) <==> Below(maxLoss, granted, other)
      ensures maxLoss <= RiskBudget(portfolio, equity, f, cfg) <==> Below(maxLoss, placeholder, other)
    {
      SizableMeansAffordable(maxLoss, liquidity, portfolio, equity, f, cfg);
    }
    PlaceholderIsGenerousWhen(QualityAtFull(equity, f, cfg), liquidity, granted, placeholder, other);
    if maxLoss: real :| maxLoss > 0.0 && Below(maxLoss, granted, other) && !Below(maxLoss, placeholder, other) {
      assert Sizable(maxLoss, liquidity, portfolio, equity, f, cfg);
    }
  }

  /** An instance: at a liquidity of one the formula grants 700 and its placeholder 560, so a candidate
      that loses 600 is sized at one contract and yet never reaches the ranking. */
  lemma BudgetDropsASizable(portfolio: seq<Position>, f: Forecast, cfg: RiskConfig)
    requires cfg.portfolio.maxTotalOpenRisk == 1500.0 && cfg.portfolio.maxTotalRiskFraction == 0.02 && portfolio == []
    requires cfg.trade.maxAccountFraction == 0.005 && cfg.trade.maxDollarRisk == 750.0 && cfg.trade.maxContracts == 10
    requires cfg.trade.minConfidence == 0.2 && cfg.baseRiskFraction == 0.0035
    requires f.confidence == 1.0 && f.stability == 1.0 && f.calibration == 1.0
    ensures Sizable(600.0, 1.0, portfolio, 200000.0, f, cfg) && 600.0 > RiskBudget(portfolio, 200000.0, f, cfg) == 560.0
  {
    assert TotalOpenRisk(portfolio) == 0.0;
    hide TotalOpenRisk, QualityBudget, QualityAtFull, Sizable;
    FullQuality(f, cfg);
    QualityScalesWithLiquidity(200000.0, f, 1.0, cfg);
    QualityScalesWithLiquidity(200000.0, f, BUDGET_LIQUIDITY, cfg);
    SizableMeansAffordable(600.0, 1.0, portfolio, 200000.0, f, cfg);
  }

  predicate Below(x: real, a: real, b: real) { x <= a && x <= b }

  lemma LessWouldBeLost(granted: real, placeholder: real, other: real)
    requires 0.0 < placeholder < granted && placeholder < other
    ensures exists x: real :: x > 0.0 && Below(x, granted, other) && !Below(x, placeholder, other)
  {
    assert Below(Min(granted, other), granted, other);
  }

  lemma PlaceholderIsGenerousWhen(full: real, liquidity: real, granted: real, placeholder: real, other: real)
    requires granted == full * Unit(liquidity) && placeholder == full * Unit(BUDGET_LIQUIDITY)
    ensures (forall x: real | x > 0.0 && Below(x, granted, other) :: Below(x, placeholder, other))
        <==> liquidity <= BUDGET_LIQUIDITY || full <= 0.0 || other <= placeholder || other <= 0.0
  {
    var u := Unit(liquidity);
    if full <= 0.0 {
      LineMonotone(Line(0.0, -full), 0.0, u);
    } else if liquidity <= BUDGET_LIQUIDITY {
      LineMonotone(Line(0.0, full), u, BUDGET_LIQUIDITY);
    } else {
      StrictScale(BUDGET_LIQUIDITY, u, full);
      StrictScale(0.0, BUDGET_LIQUIDITY, full);
      if placeholder < other {
        assert Unit(BUDGET_LIQUIDITY) == BUDGET_LIQUIDITY;
        assert placeholder == BUDGET_LIQUIDITY * full < u * full == granted;
        LessWouldBeLost(granted, placeholder, other);
      }
    }
  }

  // ---------------------------------------------------------------- the verdict

  datatype Veto = KillSwitchActive | TooCloseToClose | EventLockout | TradeLimitReached | PoorDataQuality
    | LowConfidence | ModelsDisagree | TransitionLikely | UnstableLikely | BrokerDown | Unreconciled | NoEquity
    | NoCandidate | CandidateRejected | MaxLossUndefined | DollarRiskTooHigh | ReturnTooLow | Illiquid
    | SpreadTooWide | SlippageTooHigh | TooManyLegs | AssignmentTooLikely | WidthTooGreat | DebitTooGreat
    | GammaTooGreat | VegaTooGreat | ThetaTooGreat | ExitPlanIncomplete | TooManyStrategies | TotalRiskExceeded
    | ExpirationRiskExceeded | CapitalExceeded | ZeroContracts

  datatype Decision = Decision(approved: bool, vetoes: seq<Veto>, maxContracts: nat, priceLimit: real)

  function When(condition: bool, v: Veto): (r: seq<Veto>)
    ensures forall w :: w in r <==> condition && w == v
  {
    if condition then [v] else []
  }

  function TwoWhen(first: bool, v: Veto, second: bool, w: Veto): (r: seq<Veto>)
    ensures forall u :: u in r <==> (first && u == v) || (second && u == w)
  {
    When(first, v) + When(second, w)
  }

  /** Switches on the state of the data, the broker and the models. */
  function HealthSwitches(s: Switches, snap: Snapshot, f: Forecast, broker: BrokerView, cfg: RiskConfig): Switches {
    var s1 := TripIf(s, snap.dataQuality < cfg.trade.minDataQuality, DataQuality, "data quality below minimum");
    var s2 := TripIf(s1, !(broker.connected && broker.reconciled), BrokerState, "broker unhealthy");
    var s3 := TripIf(s2, f.modelDisagreement > cfg.trade.maxModelDisagreement, ModelDisagreement, "dispersion");
    TripIf(s3, f.calibration < cfg.minCalibration, Calibration, "calibration quality")
  }

  /** The loss on the day that stops trading. */
  function LossLimit(equity: real, limits: SessionLimits): real {
    Min(limits.dailyLossLimit, equity * limits.dailyLossFraction)
  }

  /** Switches on what trading has lost. */
  function LossSwitches(s: Switches, session: SessionRecord, equity: real, cfg: RiskConfig): Switches {
    var s1 := TripIf(s, session.realizedPnl <= -LossLimit(equity, cfg.session), DailyLoss, "daily loss");
    var s2 := TripIf(s1, session.consecutiveLosses >= cfg.session.maxConsecutiveLosses, ConsecutiveLosses,
                     "losses in a row");
    var s3 := TripIf(s2, session.Drawdown(equity) >= cfg.session.maxDrawdownFraction, Drawdown, "drawdown from peak");
    TripIf(s3, session.SlippageRatio() > cfg.maxSlippageRatio, Slippage, "realized over expected slippage")
  }

  function SwitchesAfter(s: Switches, session: SessionRecord, snap: Snapshot, f: Forecast, broker: BrokerView,
      cfg: RiskConfig): Switches {
    LossSwitches(HealthSwitches(s, snap, f, broker, cfg), session, broker.equity, cfg)
  }

  function SessionVetoes(session: SessionRecord, snap: Snapshot, cfg: RiskConfig): seq<Veto> {
    When(snap.minutesToClose < cfg.session.minMinutesToClose, TooCloseToClose)
    + When(cfg.session.blockOnEvent && snap.hasBlockingEvent, EventLockout)
    + When(session.tradesToday >= cfg.session.maxTradesPerSession, TradeLimitReached)
  }

  function EnvironmentVetoes(snap: Snapshot, f: Forecast, cfg: RiskConfig): seq<Veto> {
    When(snap.dataQuality < cfg.trade.minDataQuality, PoorDataQuality)
    + When(f.confidence < cfg.trade.minConfidence, LowConfidence)
    + When(f.modelDisagreement > cfg.trade.maxModelDisagreement, ModelsDisagree)
    + When(f.transitionProbability >= 0.35, TransitionLikely)
    + When(f.unstableProbability >= 0.35, UnstableLikely)
  }

  function BrokerVetoes(broker: BrokerView): seq<Veto> {
    When(!broker.connected, BrokerDown) + When(!broker.reconciled, Unreconciled) + When(broker.equity <= 0.0, NoEquity)
  }

  function StrikeWidth(s: Strategy): real {
    var ks := Strikes(s.legs);
    ks[|ks| - 1] - ks[0]
  }

  function CandidateVetoes(c: Candidate, cfg: RiskConfig): seq<Veto> {
    When(c.rejected, CandidateRejected)
    + (if c.maxLoss.Infinite? || c.maxLoss.value <= 0.0 then [MaxLossUndefined]
       else SoundCandidateVetoes(c, c.maxLoss.value, cfg.trade))
  }

  function SoundCandidateVetoes(c: Candidate, maxLoss: real, limits: TradeLimits): seq<Veto> {
    EconomicVetoes(c, maxLoss, limits) + StructureVetoes(c, limits) + ExposureVetoes(c, limits)
  }

  function EconomicVetoes(c: Candidate, maxLoss: real, limits: TradeLimits): seq<Veto> {
    TwoWhen(maxLoss > limits.maxDollarRisk, DollarRiskTooHigh, c.returnOnRisk < limits.minReturnOnRisk, ReturnTooLow)
    + TwoWhen(c.liquidityScore < limits.minLiquidity, Illiquid,
              c.worstSpreadRatio > limits.maxSpreadRatio, SpreadTooWide)
    + When(c.expectedSlippage > limits.maxSlippageFraction * maxLoss, SlippageTooHigh)
  }

  function StructureVetoes(c: Candidate, limits: TradeLimits): seq<Veto> {
    TwoWhen(|c.strategy.legs| > limits.maxLegs, TooManyLegs,
            c.assignmentRisk > limits.maxAssignmentRisk, AssignmentTooLikely)
    + TwoWhen(StrikeWidth(c.strategy) > limits.maxSpreadWidth, WidthTooGreat,
              Max(0.0, NetEntryCost(c.strategy.legs)) > limits.maxDebit, DebitTooGreat)
  }

  function ExposureVetoes(c: Candidate, limits: TradeLimits): seq<Veto> {
    TwoWhen(Magnitude(c.greeks.gamma) > limits.maxGamma, GammaTooGreat,
            Magnitude(c.greeks.vega) > limits.maxVega, VegaTooGreat)
    + TwoWhen(Magnitude(c.greeks.theta) > limits.maxTheta, ThetaTooGreat,
              c.exitPlan.closeBeforeExpiryMinutes <= 0.0, ExitPlanIncomplete)
  }

  function Magnitude(x: real): real { if x < 0.0 then -x else x }

  function PortfolioVetoes(c: Candidate, portfolio: seq<Position>, equity: real, cfg: PortfolioLimits): seq<Veto> {
    When(OpenCount(portfolio) >= cfg.maxOpenStrategies, TooManyStrategies)
    + When(c.maxLoss.Infinite?
           || TotalOpenRisk(portfolio) + c.maxLoss.value
              > Min(cfg.maxTotalOpenRisk, equity * cfg.maxTotalRiskFraction), TotalRiskExceeded)
    + When(c.maxLoss.Infinite?
           || RiskForExpiration(portfolio, NearExpiry(c.strategy)) + c.maxLoss.value
              > cfg.maxSameExpirationRisk, ExpirationRiskExceeded)
    + When(c.capitalUsage > equity * cfg.maxCapitalFraction, CapitalExceeded)
  }

  function PriceLimit(c: Candidate): real {
    var tolerance := 0.01 * |c.strategy.legs| as real;
    if c.entryPrice >= 0.0 then c.entryPrice + tolerance else c.entryPrice - tolerance
  }

  datatype Verdict = Verdict(session: SessionRecord, switches: Switches, decision: Decision, sizing: Option<Sizing>)

  /** The checks that do not look at a candidate. */
  function StandingVetoes(session: SessionRecord, switches: Switches, snap: Snapshot, f: Forecast, broker: BrokerView,
      cfg: RiskConfig): seq<Veto> {
    When(switches != map[], KillSwitchActive) + SessionVetoes(session, snap, cfg) + EnvironmentVetoes(snap, f, cfg)
    + BrokerVetoes(broker)
  }

  /** The whole evaluation: roll the session, update the switches, then run every check. */
  function Judge(c: Option<Candidate>, session: SessionRecord, switches: Switches, snap: Snapshot, f: Forecast,
                 portfolio: seq<Position>, broker: BrokerView, cfg: RiskConfig): Verdict {
    var rolled := session.RolledTo(snap.day, broker.equity);
    var after := SwitchesAfter(switches, rolled, snap, f, broker, cfg);
    var common := StandingVetoes(rolled, after, snap, f, broker, cfg);
    if c.None? then Verdict(rolled, after, Decision(false, common + [NoCandidate], 0, 0.0), None)
    else
      var sizing := SizePosition(c.value.maxLoss, c.value.liquidityScore, broker.equity, f,
                                 AvailableRisk(portfolio, broker.equity, cfg), cfg);
      var vetoes := common + CandidateVetoes(c.value, cfg)
                    + PortfolioVetoes(c.value, portfolio, broker.equity, cfg.portfolio)
                    + When(sizing.contracts < 1, ZeroContracts);
      Verdict(rolled, after,
              Decision(vetoes == [], vetoes, if vetoes == [] then sizing.contracts else 0,
                       if vetoes == [] then PriceLimit(c.value) else 0.0),
              Some(sizing))
  }

  ghost predicate SessionAllows(session: SessionRecord, snap: Snapshot, limits: SessionLimits) {
    && snap.minutesToClose >= limits.minMinutesToClose
    && (limits.blockOnEvent ==> !snap.hasBlockingEvent)
    && session.tradesToday < limits.maxTradesPerSession
  }

  ghost predicate EnvironmentAllows(snap: Snapshot, f: Forecast, limits: TradeLimits) {
    && snap.dataQuality >= limits.minDataQuality
    && f.confidence >= limits.minConfidence
    && f.modelDisagreement <= limits.maxModelDisagreement
    && f.transitionProbability < 0.35 && f.unstableProbability < 0.35
  }

  ghost predicate CandidateAllowed(c: Candidate, limits: TradeLimits) {
    && !c.rejected && c.maxLoss.Finite? && 0.0 < c.maxLoss.value <= limits.maxDollarRisk
    && c.returnOnRisk >= limits.minReturnOnRisk
    && c.liquidityScore >= limits.minLiquidity && c.worstSpreadRatio <= limits.maxSpreadRatio
    && c.expectedSlippage <= limits.maxSlippageFraction * c.maxLoss.value
    && |c.strategy.legs| <= limits.maxLegs && c.assignmentRisk <= limits.maxAssignmentRisk
    && (forall k, j | k in c.strategy.legs && j in c.strategy.legs :: k.strike - j.strike <= limits.maxSpreadWidth)
    && NetEntryCost(c.strategy.legs) <= limits.maxDebit && 0.0 <= limits.maxDebit
    && -limits.maxGamma <= c.greeks.gamma <= limits.maxGamma
    && -limits.maxVega <= c.greeks.vega <= limits.maxVega
    && -limits.maxTheta <= c.greeks.theta <= limits.maxTheta
    && c.exitPlan.closeBeforeExpiryMinutes > 0.0
  }

  /** The candidate fits the portfolio as one contract. */
  ghost predicate PortfolioAllows(c: Candidate, portfolio: seq<Position>, equity: real, limits: PortfolioLimits)
    requires c.maxLoss.Finite?
  {
    && OpenCount(portfolio) < limits.maxOpenStrategies
    && TotalOpenRisk(portfolio) + c.maxLoss.value <= limits.maxTotalOpenRisk
    && TotalOpenRisk(portfolio) + c.maxLoss.value <= equity * limits.maxTotalRiskFraction
    && RiskForExpiration(portfolio, NearExpiry(c.strategy)) + c.maxLoss.value <= limits.maxSameExpirationRisk
    && c.capitalUsage <= equity * limits.maxCapitalFraction
  }

  lemma StrikeBounds(legs: seq<Leg>, leg: Leg)
    requires leg in legs
    ensures var ks := Strikes(legs); ks[0] <= leg.strike <= ks[|ks| - 1]
  {
    var ks := Strikes(legs);
    assert leg.strike in ks;
    var m :| 0 <= m < |ks| && ks[m] == leg.strike;
  }

  /** Legs at the lowest and at the highest strike. */
  lemma OuterLegs(legs: seq<Leg>) returns (low: Leg, high: Leg)
    requires legs != []
    ensures low in legs && high in legs
    ensures var ks := Strikes(legs); low.strike == ks[0] && high.strike == ks[|ks| - 1]
  {
    var ks := Strikes(legs);
    assert ks[0] in ks && ks[|ks| - 1] in ks;
    low :| low in legs && low.strike == ks[0];
    high :| high in legs && high.strike == ks[|ks| - 1];
  }

  lemma WidthIsGreatestGap(s: Strategy, limit: real)
    ensures StrikeWidth(s) <= limit <==> forall k, j | k in s.legs && j in s.legs :: k.strike - j.strike <= limit
  {
    var low, high := OuterLegs(s.legs);
    assert StrikeWidth(s) == high.strike - low.strike;
    forall k, j | k in s.legs && j in s.legs ensures k.strike - j.strike <= high.strike - low.strike {
      StrikeBounds(s.legs, k);
      StrikeBounds(s.legs, j);
    }
    hide StrikeWidth;
  }

  lemma CandidateVetoesAreLimits(c: Candidate, cfg: RiskConfig)
    ensures CandidateVetoes(c, cfg) == [] <==> CandidateAllowed(c, cfg.trade)
  {
    hide StrikeWidth, NetEntryCost;
    WidthIsGreatestGap(c.strategy, cfg.trade.maxSpreadWidth);
    if c.maxLoss.Finite? && c.maxLoss.value > 0.0 {
      SoundVetoesAreLimits(c, c.maxLoss.value, cfg.trade);
    }
  }

  lemma SoundVetoesAreLimits(c: Candidate, maxLoss: real, limits: TradeLimits)
    ensures SoundCandidateVetoes(c, maxLoss, limits) == [] <==>
      && maxLoss <= limits.maxDollarRisk && c.returnOnRisk >= limits.minReturnOnRisk
      && c.liquidityScore >= limits.minLiquidity
      && c.worstSpreadRatio <= limits.maxSpreadRatio && c.expectedSlippage <= limits.maxSlippageFraction * maxLoss
      && |c.strategy.legs| <= limits.maxLegs && c.assignmentRisk <= limits.maxAssignmentRisk
      && StrikeWidth(c.strategy) <= limits.maxSpreadWidth && Max(0.0, NetEntryCost(c.strategy.legs)) <= limits.maxDebit
      && Magnitude(c.greeks.gamma) <= limits.maxGamma && Magnitude(c.greeks.vega) <= limits.maxVega
      && Magnitude(c.greeks.theta) <= limits.maxTheta && c.exitPlan.closeBeforeExpiryMinutes > 0.0
  {
    hide StrikeWidth, NetEntryCost, Magnitude, Max;
  }

  // ---------------------------------------------------------------- which broken limits are reported

  predicate DefinedLoss(c: Candidate) { c.maxLoss.Finite? && c.maxLoss.value > 0.0 }

  /** The candidate breaks the per-trade limit behind a veto. */
  ghost predicate Breaks(c: Candidate, v: Veto, limits: TradeLimits) {
    match v
    case DollarRiskTooHigh => c.maxLoss.Infinite? || c.maxLoss.value > limits.maxDollarRisk
    case ReturnTooLow => c.returnOnRisk < limits.minReturnOnRisk
    case Illiquid => c.liquidityScore < limits.minLiquidity
    case SpreadTooWide => c.worstSpreadRatio > limits.maxSpreadRatio
    case SlippageTooHigh => c.maxLoss.Finite? && c.expectedSlippage > limits.maxSlippageFraction * c.maxLoss.value
    case TooManyLegs => |c.strategy.legs| > limits.maxLegs
    case AssignmentTooLikely => c.assignmentRisk > limits.maxAssignmentRisk
    case WidthTooGreat =>
      exists k, j :: k in c.strategy.legs && j in c.strategy.legs && k.strike - j.strike > limits.maxSpreadWidth
    case DebitTooGreat => NetEntryCost(c.strategy.legs) > limits.maxDebit || limits.maxDebit < 0.0
    case GammaTooGreat => !(-limits.maxGamma <= c.greeks.gamma <= limits.maxGamma)
    case VegaTooGreat => !(-limits.maxVega <= c.greeks.vega <= limits.maxVega)
    case ThetaTooGreat => !(-limits.maxTheta <= c.greeks.theta <= limits.maxTheta)
    case ExitPlanIncomplete => c.exitPlan.closeBeforeExpiryMinutes <= 0.0
    case _ => false
  }

  predicate IsEconomic(v: Veto) {
    v.DollarRiskTooHigh? || v.ReturnTooLow? || v.Illiquid? || v.SpreadTooWide? || v.SlippageTooHigh?
  }

  predicate IsStructural(v: Veto) { v.TooManyLegs? || v.AssignmentTooLikely? || v.WidthTooGreat? || v.DebitTooGreat? }

  predicate IsExposure(v: Veto) { v.GammaTooGreat? || v.VegaTooGreat? || v.ThetaTooGreat? || v.ExitPlanIncomplete? }

  predicate IsTradeVeto(v: Veto) { IsEconomic(v) || IsStructural(v) || IsExposure(v) }

  lemma EconomicReports(c: Candidate, maxLoss: real, v: Veto, limits: TradeLimits)
    requires c.maxLoss == Finite(maxLoss)
    ensures v in EconomicVetoes(c, maxLoss, limits) <==> IsEconomic(v) && Breaks(c, v, limits)
  {
    hide When, TwoWhen;
  }

  lemma StructureReports(c: Candidate, v: Veto, limits: TradeLimits)
    ensures v in StructureVetoes(c, limits) <==> IsStructural(v) && Breaks(c, v, limits)
  {
    WidthIsGreatestGap(c.strategy, limits.maxSpreadWidth);
    hide StrikeWidth, NetEntryCost, When, TwoWhen;
  }

  lemma ExposureReports(c: Candidate, v: Veto, limits: TradeLimits)
    ensures v in ExposureVetoes(c, limits) <==> IsExposure(v) && Breaks(c, v, limits)
  {
    hide When, TwoWhen;
  }

  lemma SoundVetoesReport(c: Candidate, maxLoss: real, v: Veto, limits: TradeLimits)
    requires c.maxLoss == Finite(maxLoss) && IsTradeVeto(v)
    ensures v in SoundCandidateVetoes(c, maxLoss, limits) <==> Breaks(c, v, limits)
  {
    EconomicReports(c, maxLoss, v, limits);
    StructureReports(c, v, limits);
    ExposureReports(c, v, limits);
    hide Breaks, EconomicVetoes, StructureVetoes, ExposureVetoes, IsEconomic, IsStructural, IsExposure;
  }

  lemma SessionReportsOthers(session: SessionRecord, snap: Snapshot, cfg: RiskConfig, v: Veto)
    requires IsTradeVeto(v)
    ensures v !in SessionVetoes(session, snap, cfg)
  {
    hide When;
  }

  lemma BrokerReportsOthers(broker: BrokerView, v: Veto)
    requires IsTradeVeto(v)
    ensures v !in BrokerVetoes(broker)
  {
    hide When;
  }

  lemma StandingReportsOthers(session: SessionRecord, switches: Switches, snap: Snapshot, f: Forecast,
      broker: BrokerView, cfg: RiskConfig, v: Veto)
    requires IsTradeVeto(v)
    ensures v !in StandingVetoes(session, switches, snap, f, broker, cfg)
  {
    SessionReportsOthers(session, snap, cfg, v);
    EnvironmentReportsOthers(snap, f, cfg, v);
    BrokerReportsOthers(broker, v);
    TradeVetoesAreNeither(v);
    hide SessionVetoes, EnvironmentVetoes, BrokerVetoes, When, IsTradeVeto;
  }

  lemma EnvironmentReportsOthers(snap: Snapshot, f: Forecast, cfg: RiskConfig, v: Veto)
    requires IsTradeVeto(v)
    ensures v !in EnvironmentVetoes(snap, f, cfg)
  {
    hide When;
  }

  lemma PortfolioReportsOthers(c: Candidate, portfolio: seq<Position>, equity: real, limits: PortfolioLimits, v: Veto)
    requires IsTradeVeto(v)
    ensures v !in PortfolioVetoes(c, portfolio, equity, limits)
  {
    hide OpenCount, TotalOpenRisk, RiskForExpiration, NearExpiry, When, Min;
  }

  lemma CandidateReports(c: Candidate, v: Veto, cfg: RiskConfig)
    requires IsTradeVeto(v)
    ensures v in CandidateVetoes(c, cfg) <==> Breaks(c, v, cfg.trade) && DefinedLoss(c)
    ensures !DefinedLoss(c) ==> MaxLossUndefined in CandidateVetoes(c, cfg)
  {
    if DefinedLoss(c) {
      SoundVetoesReport(c, c.maxLoss.value, v, cfg.trade);
    }
    hide SoundCandidateVetoes, Breaks, When, IsTradeVeto;
    assert IsTradeVeto(v) ==> v != CandidateRejected && v != MaxLossUndefined by {
      TradeVetoesAreNeither(v);
    }
  }

  lemma TradeVetoesAreNeither(v: Veto)
    requires IsTradeVeto(v)
    ensures v != CandidateRejected && v != MaxLossUndefined && v != KillSwitchActive && v != ZeroContracts
  {
  }

  /** Not every check is always run: the verdict names a per-trade limit exactly when the candidate breaks
      it and its maximum loss is finite and positive. Otherwise none of them is named, and the undefined
      loss is, so nothing is approved for it. */
  lemma LimitIsReportedExactlyWhen(c: Candidate, session: SessionRecord, switches: Switches, snap: Snapshot,
      f: Forecast, portfolio: seq<Position>, broker: BrokerView, cfg: RiskConfig, v: Veto)
    requires IsTradeVeto(v)
    ensures var decision := Judge(Some(c), session, switches, snap, f, portfolio, broker, cfg).decision;
      && (v in decision.vetoes <==> Breaks(c, v, cfg.trade) && DefinedLoss(c))
      && (!DefinedLoss(c) ==> !decision.approved && MaxLossUndefined in decision.vetoes)
  {
    var rolled := session.RolledTo(snap.day, broker.equity);
    StandingReportsOthers(rolled, SwitchesAfter(switches, rolled, snap, f, broker, cfg), snap, f, broker, cfg, v);
    PortfolioReportsOthers(c, portfolio, broker.equity, cfg.portfolio, v);
    TradeVetoesAreNeither(v);
    CandidateReports(c, v, cfg);
    var after := SwitchesAfter(switches, rolled, snap, f, broker, cfg);
    var sizing := SizePosition(c.maxLoss, c.liquidityScore, broker.equity, f,
                               AvailableRisk(portfolio, broker.equity, cfg), cfg);
    OneReports(StandingVetoes(rolled, after, snap, f, broker, cfg), CandidateVetoes(c, cfg),
               PortfolioVetoes(c, portfolio, broker.equity, cfg.portfolio),
               When(sizing.contracts < 1, ZeroContracts), v);
    hide SizePosition, SwitchesAfter, AvailableRisk, StandingVetoes, PortfolioVetoes, CandidateVetoes, Breaks, When,
      PriceLimit, DefinedLoss, IsTradeVeto, SessionRecord.RolledTo;
  }

  lemma OneReports(a: seq<Veto>, b: seq<Veto>, c: seq<Veto>, d: seq<Veto>, v: Veto)
    ensures v !in a && v !in c && v !in d ==> (v in a + b + c + d <==> v in b)
    ensures MaxLossUndefined in b ==> MaxLossUndefined in a + b + c + d
  {
  }

  /** An instance: five legs against a limit of four, and an infinite maximum loss. */
  lemma LegLimitIsSkipped(c: Candidate, session: SessionRecord, switches: Switches, snap: Snapshot, f: Forecast,
      portfolio: seq<Position>, broker: BrokerView, cfg: RiskConfig)
    requires c.maxLoss == Infinite && |c.strategy.legs| == 5 && cfg.trade.maxLegs == 4
    ensures Breaks(c, TooManyLegs, cfg.trade)
    ensures TooManyLegs !in Judge(Some(c), session, switches, snap, f, portfolio, broker, cfg).decision.vetoes
  {
    hide Judge;
    LimitIsReportedExactlyWhen(c, session, switches, snap, f, portfolio, broker, cfg, TooManyLegs);
  }

  lemma PortfolioVetoesAreLimits(c: Candidate, portfolio: seq<Position>, equity: real, limits: PortfolioLimits)
    requires c.maxLoss.Finite?
    ensures PortfolioVetoes(c, portfolio, equity, limits) == [] <==> PortfolioAllows(c, portfolio, equity, limits)
  {
    hide OpenCount, TotalOpenRisk, RiskForExpiration, NearExpiry;
  }

  /** What is left of the same-expiration limit at an instant. */
  function RoomAt(portfolio: seq<Position>, expiry: Instant, cfg: RiskConfig): real {
    cfg.portfolio.maxSameExpirationRisk - RiskForExpiration(portfolio, expiry)
  }

  /** What is left of it where a candidate first expires, the only instant the check looks at. */
  function ExpirationRoom(c: Candidate, portfolio: seq<Position>, cfg: RiskConfig): real {
    RoomAt(portfolio, NearExpiry(c.strategy), cfg)
  }

  /** The same-expiration check is silent for this candidate with a loss of `k` a contract. */
  predicate PassesExpirationCheck(c: Candidate, k: real, portfolio: seq<Position>, equity: real, cfg: RiskConfig) {
    ExpirationRiskExceeded !in PortfolioVetoes(c.(maxLoss := Finite(k)), portfolio, equity, cfg.portfolio)
  }

  lemma PassingIsFitting(c: Candidate, k: real, portfolio: seq<Position>, equity: real, cfg: RiskConfig)
    ensures PassesExpirationCheck(c, k, portfolio, equity, cfg) <==> k <= ExpirationRoom(c, portfolio, cfg)
  {
    hide OpenCount, TotalOpenRisk, RiskForExpiration, NearExpiry;
  }

  /** Whatever a candidate's loss, passing the same-expiration check keeps its sized risk within what is
      left at its nearest expiration if and only if sizing buys at most one contract, or every cap fits
      the room left, or there is none. */
  lemma NearestExpirationHoldsExactlyWhen(c: Candidate, portfolio: seq<Position>, equity: real, f: Forecast,
      cfg: RiskConfig)
    ensures var room, available := ExpirationRoom(c, portfolio, cfg), AvailableRisk(portfolio, equity, cfg);
      (forall k: real | k > 0.0 && PassesExpirationCheck(c, k, portfolio, equity, cfg) ::
         SizedRisk(k, c.liquidityScore, equity, f, available, cfg) <= room)
      <==> cfg.trade.maxContracts <= 1 || Tight(c.liquidityScore, equity, f, available, cfg) <= room || room <= 0.0
  {
    hide SizedRisk, Tight, AvailableRisk, PassesExpirationCheck, ExpirationRoom;
    var room, available := ExpirationRoom(c, portfolio, cfg), AvailableRisk(portfolio, equity, cfg);
    forall k: real
      ensures PassesExpirationCheck(c, k, portfolio, equity, cfg) <==> k <= room
    {
      PassingIsFitting(c, k, portfolio, equity, cfg);
    }
    OneContractCheckHoldsExactlyWhen(room, c.liquidityScore, equity, f, available, cfg);
  }

  /** No loss a check against `near` lets through is sized beyond `room`. */
  ghost predicate Protects(near: real, room: real, liquidity: real, equity: real, f: Forecast, available: real,
      cfg: RiskConfig) {
    forall k: real | 0.0 < k <= near && SizedRisk(k, liquidity, equity, f, available, cfg) > 0.0 ::
      SizedRisk(k, liquidity, equity, f, available, cfg) <= room
  }

  /** The most a check against `near` lets sizing buy. */
  function Reach(near: real, liquidity: real, equity: real, f: Forecast, available: real, cfg: RiskConfig): real {
    Min(Tight(liquidity, equity, f, available, cfg), Product(cfg.trade.maxContracts as real, near))
  }

  /** Checking one contract against one room protects another exactly when nothing passes, nothing can be
      bought, or the other has room for the least cap or for as many contracts as may be bought. */
  lemma ProtectsExactlyWhen(near: real, room: real, liquidity: real, equity: real, f: Forecast, available: real,
      cfg: RiskConfig)
    ensures Protects(near, room, liquidity, equity, f, available, cfg) <==>
      || near <= 0.0 || cfg.trade.maxContracts <= 0 || Tight(liquidity, equity, f, available, cfg) <= 0.0
      || Reach(near, liquidity, equity, f, available, cfg) <= room
  {
    hide Tight, SizedRisk, Product;
    var tight := Tight(liquidity, equity, f, available, cfg);
    if near > 0.0 && cfg.trade.maxContracts > 0 && tight > 0.0 {
      forall k: real | 0.0 < k <= near
        ensures SizedRisk(k, liquidity, equity, f, available, cfg)
             <= Max(0.0, Reach(near, liquidity, equity, f, available, cfg))
      {
        SizedWithinReach(k, near, liquidity, equity, f, available, cfg);
      }
      var k := ReachIsBought(near, liquidity, equity, f, available, cfg);
    } else {
      forall k: real | 0.0 < k <= near
        ensures SizedRisk(k, liquidity, equity, f, available, cfg) <= 0.0
      {
        NothingIsBought(k, liquidity, equity, f, available, cfg);
      }
    }
  }

  lemma NothingIsBought(k: real, liquidity: real, equity: real, f: Forecast, available: real, cfg: RiskConfig)
    requires k > 0.0 && (cfg.trade.maxContracts <= 0 || Tight(liquidity, equity, f, available, cfg) <= 0.0)
    ensures SizedRisk(k, liquidity, equity, f, available, cfg) == 0.0
  {
    hide Tight, SizePosition;
    SizedContracts(k, liquidity, equity, f, available, cfg, 1);
  }

  lemma SizedWithinReach(k: real, near: real, liquidity: real, equity: real, f: Forecast, available: real,
      cfg: RiskConfig)
    requires 0.0 < k <= near && cfg.trade.maxContracts > 0
    ensures SizedRisk(k, liquidity, equity, f, available, cfg)
             <= Max(0.0, Reach(near, liquidity, equity, f, available, cfg))
  {
    hide Tight, SizePosition;
    var n, m := SizePosition(Finite(k), liquidity, equity, f, available, cfg).contracts, cfg.trade.maxContracts as real;
    if n >= 1 {
      SizedContracts(k, liquidity, equity, f, available, cfg, n);
      assert SizedRisk(k, liquidity, equity, f, available, cfg) == Product(n as real, k);
      hide Product;
      ProductDistributes(k, m, n as real);
      ProductSigns(m - n as real, k);
      ProductDistributes(m, near, k);
      ProductSigns(m, near - k);
    }
  }

  lemma ReachIsBought(near: real, liquidity: real, equity: real, f: Forecast, available: real,
      cfg: RiskConfig) returns (k: real)
    requires near > 0.0 && cfg.trade.maxContracts > 0 && Tight(liquidity, equity, f, available, cfg) > 0.0
    ensures 0.0 < k <= near && Reach(near, liquidity, equity, f, available, cfg) > 0.0
    ensures SizedRisk(k, liquidity, equity, f, available, cfg) == Reach(near, liquidity, equity, f, available, cfg)
  {
    hide Tight, SizePosition;
    var tight, m := Tight(liquidity, equity, f, available, cfg), cfg.trade.maxContracts;
    var share := PositiveQuotient(tight, m as real);
    k := Min(near, share);
    var n := SizePosition(Finite(k), liquidity, equity, f, available, cfg).contracts;
    ProductSigns(m as real, near);
    ProductOrder(m as real, near, share);
    assert m as real * share == tight;
    SizedContracts(k, liquidity, equity, f, available, cfg, m);
    SizedContracts(k, liquidity, equity, f, available, cfg, n);
  }

  lemma ProductOrder(m: real, a: real, b: real)
    requires m > 0.0
    ensures m * Min(a, b) == Min(m * a, m * b)
  {
    if a <= b {
      ProductNonNegative(m, b - a);
    } else {
      ProductPositive(m, a - b);
    }
  }

  /** Whatever a candidate's loss, passing the same-expiration check keeps what sizing buys within the
      limit at every expiration of its legs if and only if nothing passes, nothing can be bought, or each
      of those instants has room for the least cap or for as many contracts as may be bought. */
  lemma SameExpirationHoldsExactlyWhen(c: Candidate, portfolio: seq<Position>, equity: real, f: Forecast,
      cfg: RiskConfig)
    ensures var near, available := ExpirationRoom(c, portfolio, cfg), AvailableRisk(portfolio, equity, cfg);
      (forall e, k: real | e in Expiries(c.strategy.legs) && k > 0.0
                           && PassesExpirationCheck(c, k, portfolio, equity, cfg)
                           && SizedRisk(k, c.liquidityScore, equity, f, available, cfg) > 0.0 ::
         SizedRisk(k, c.liquidityScore, equity, f, available, cfg) <= RoomAt(portfolio, e, cfg))
      <==>
        || near <= 0.0 || cfg.trade.maxContracts <= 0 || Tight(c.liquidityScore, equity, f, available, cfg) <= 0.0
        || forall e | e in Expiries(c.strategy.legs) ::
             Reach(near, c.liquidityScore, equity, f, available, cfg) <= RoomAt(portfolio, e, cfg)
  {
    hide SizedRisk, Tight, Reach, AvailableRisk, PassesExpirationCheck, ExpirationRoom, RoomAt, Expiries;
    var near, available := ExpirationRoom(c, portfolio, cfg), AvailableRisk(portfolio, equity, cfg);
    forall k: real
      ensures PassesExpirationCheck(c, k, portfolio, equity, cfg) <==> k <= near
    {
      PassingIsFitting(c, k, portfolio, equity, cfg);
    }
    forall e
      ensures Protects(near, RoomAt(portfolio, e, cfg), c.liquidityScore, equity, f, available, cfg) <==>
        || near <= 0.0 || cfg.trade.maxContracts <= 0 || Tight(c.liquidityScore, equity, f, available, cfg) <= 0.0
        || Reach(near, c.liquidityScore, equity, f, available, cfg) <= RoomAt(portfolio, e, cfg)
    {
      ProtectsExactlyWhen(near, RoomAt(portfolio, e, cfg), c.liquidityScore, equity, f, available, cfg);
    }
    SomeExpiry(c.strategy);
  }

  lemma SomeExpiry(s: Strategy)
    ensures NearExpiry(s) in Expiries(s.legs)
  {
  }

  lemma FullConfidence()
    ensures ConfidenceFactor(1.0, 0.2) == 1.0
  {
    assert (Min(1.0, 1.0) - 0.2) / (1.0 - 0.2) == 1.0;
  }

  lemma FullQuality(f: Forecast, cfg: RiskConfig)
    requires f.confidence == 1.0 && f.stability == 1.0 && f.calibration == 1.0
    requires cfg.trade.minConfidence == 0.2 && cfg.baseRiskFraction == 0.0035
    ensures QualityBudget(200000.0, f, 1.0, cfg) == 700.0
  {
    FullConfidence();
    hide ConfidenceFactor;
  }

  /** An instance: 700 of a 1000 limit is held in the candidate's expiration, the candidate loses 300 a
      contract, every portfolio check is silent, and sizing buys two contracts: 1300 in one expiration. */
  lemma SameExpirationOverrun(c: Candidate, held: Position, f: Forecast, cfg: RiskConfig)
    requires cfg.portfolio == PortfolioLimits(2, 1500.0, 0.02, 1000.0, 0.25)
    requires cfg.trade.maxAccountFraction == 0.005 && cfg.trade.maxDollarRisk == 750.0 && cfg.trade.maxContracts == 10
    requires cfg.trade.minConfidence == 0.2 && cfg.baseRiskFraction == 0.0035
    requires f.confidence == 1.0 && f.stability == 1.0 && f.calibration == 1.0
    requires c.maxLoss == Finite(300.0) && c.liquidityScore == 1.0 && c.capitalUsage == 300.0
    requires held.IsOpen() && held.TotalMaxLoss() == 700.0 && exists l ::
      l in held.strategy.legs && l.expiry == NearExpiry(c.strategy)
    ensures PortfolioVetoes(c, [held], 200000.0, cfg.portfolio) == []
    ensures SizePosition(c.maxLoss, 1.0, 200000.0, f, AvailableRisk([held], 200000.0, cfg), cfg).contracts == 2
    ensures RiskForExpiration([held], NearExpiry(c.strategy)) + 2.0 * 300.0
      == 1300.0 > cfg.portfolio.maxSameExpirationRisk
  {
    hide NearExpiry, QualityBudget, Position.TotalMaxLoss;
    HeldAlone(held, NearExpiry(c.strategy));
    hide OpenCount, TotalOpenRisk, RiskForExpiration;
    FullQuality(f, cfg);
    var available := AvailableRisk([held], 200000.0, cfg);
    assert available == 800.0;
    LeastOfFour(f, cfg, available);
    hide Caps, Tightest, SizePosition, AvailableRisk, Tight;
    SizedContracts(300.0, 1.0, 200000.0, f, available, cfg, 2);
    SizedContracts(300.0, 1.0, 200000.0, f, available, cfg, 3);
  }

  /** An instance at a later leg: 900 of a 1000 limit expires at `later`, where a calendar that first expires
      before has a leg and loses 300. One contract may be bought, every portfolio check is silent, sizing
      buys it, and 1200 is then counted under `later`. */
  lemma LaterExpirationOverrun(c: Candidate, held: Position, p: Position, later: Instant, f: Forecast, cfg: RiskConfig)
    requires cfg.portfolio == PortfolioLimits(2, 1500.0, 0.02, 1000.0, 0.25)
    requires cfg.trade.maxAccountFraction == 0.005 && cfg.trade.maxDollarRisk == 750.0 && cfg.trade.maxContracts == 1
    requires cfg.trade.minConfidence == 0.2 && cfg.baseRiskFraction == 0.0035
    requires f.confidence == 1.0 && f.stability == 1.0 && f.calibration == 1.0
    requires c.maxLoss == Finite(300.0) && c.liquidityScore == 1.0 && c.capitalUsage == 300.0
    requires later in Expiries(c.strategy.legs) && later != NearExpiry(c.strategy)
    requires held.IsOpen() && held.TotalMaxLoss() == 900.0 && forall l | l in held.strategy.legs :: l.expiry == later
    requires p.IsOpen() && p.strategy == c.strategy && p.contracts == 1 && p.maxLossPerContract == 300.0
    requires p.entryCommission >= 0.0
    ensures PortfolioVetoes(c, [held], 200000.0, cfg.portfolio) == []
    ensures SizePosition(c.maxLoss, 1.0, 200000.0, f, AvailableRisk([held], 200000.0, cfg), cfg).contracts == 1
    ensures RiskForExpiration([held] + [p], later) >= 1200.0 > cfg.portfolio.maxSameExpirationRisk
  {
    var first := held.strategy.legs[0];
    assert first in held.strategy.legs;
    HeldAlone(held, later);
    HeldElsewhere(held, NearExpiry(c.strategy));
    assert p.TotalMaxLoss() >= 300.0;
    assert exists l :: l in p.strategy.legs && l.expiry == later;
    hide NearExpiry, QualityBudget, Position.TotalMaxLoss;
    RiskForExpirationOfAppend([held], p, later);
    hide OpenCount, TotalOpenRisk, RiskForExpiration;
    FullQuality(f, cfg);
    var available := AvailableRisk([held], 200000.0, cfg);
    assert available == 600.0;
    LeastOfFour(f, cfg, available);
    hide Caps, Tightest, SizePosition, AvailableRisk, Tight;
    SizedContracts(300.0, 1.0, 200000.0, f, available, cfg, 1);
    SizedContracts(300.0, 1.0, 200000.0, f, available, cfg, 2);
  }

  lemma HeldElsewhere(held: Position, expiry: Instant)
    requires forall l | l in held.strategy.legs :: l.expiry != expiry
    ensures RiskForExpiration([held], expiry) == 0.0
  {
    assert [held][1..] == [];
  }

  lemma HeldAlone(held: Position, expiry: Instant)
    requires held.IsOpen() && exists l :: l in held.strategy.legs && l.expiry == expiry
    ensures OpenCount([held]) == 1 && TotalOpenRisk([held]) == held.TotalMaxLoss()
    ensures RiskForExpiration([held], expiry) == held.TotalMaxLoss()
  {
    hide Position.TotalMaxLoss;
    var rest := [held][1..];
    assert rest == [];
    assert OpenOnes(rest) == [] && TotalOpenRisk(rest) == 0.0 && RiskForExpiration(rest, expiry) == 0.0;
    assert OpenOnes([held]) == [held];
  }

  lemma LeastOfFour(f: Forecast, cfg: RiskConfig, available: real)
    requires QualityBudget(200000.0, f, 1.0, cfg) == 700.0 && available >= 0.0
    requires cfg.trade.maxAccountFraction == 0.005 && cfg.trade.maxDollarRisk == 750.0
    ensures Tight(1.0, 200000.0, f, available, cfg) == Min(700.0, available)
  {
    hide QualityBudget;
    var caps := Caps(200000.0, f, 1.0, available, cfg);
    assert caps[0].1 == 700.0 && caps[1].1 == 1000.0 && caps[2].1 == 750.0 && caps[3].1 == available;
    var least := Tightest(caps);
    assert caps[0] in caps && caps[3] in caps;
  }

  /** The verdict is an approval exactly when every limit holds at once: no switch after this cycle's
      update, the session, environment, broker, trade and portfolio limits, and at least one contract. */
  lemma ApprovedExactlyWhen(c: Option<Candidate>, session: SessionRecord, switches: Switches, snap: Snapshot,
      f: Forecast, portfolio: seq<Position>, broker: BrokerView, cfg: RiskConfig)
    ensures var v := Judge(c, session, switches, snap, f, portfolio, broker, cfg);
      v.decision.approved <==>
        && c.Some? && v.switches == map[]
        && SessionAllows(session.RolledTo(snap.day, broker.equity), snap, cfg.session)
        && EnvironmentAllows(snap, f, cfg.trade)
        && broker.connected && broker.reconciled && broker.equity > 0.0
        && CandidateAllowed(c.value, cfg.trade)
        && PortfolioAllows(c.value, portfolio, broker.equity, cfg.portfolio)
        && v.sizing.value.contracts >= 1
  {
    hide SizePosition, SwitchesAfter, AvailableRisk, CandidateVetoes, PortfolioVetoes, CandidateAllowed,
      PortfolioAllows;
    if c.Some? {
      CandidateVetoesAreLimits(c.value, cfg);
      AllowedIsFinite(c.value, cfg.trade);
      if c.value.maxLoss.Finite? {
        PortfolioVetoesAreLimits(c.value, portfolio, broker.equity, cfg.portfolio);
      }
    }
  }

  lemma AllowedIsFinite(c: Candidate, limits: TradeLimits)
    ensures CandidateAllowed(c, limits) ==> c.maxLoss.Finite?
  {
  }

  /** An approval means no switch is active, the broker is sound, a strategy slot is free and the
      approved contracts fit the remaining portfolio risk. */
  lemma ApprovalMeans(c: Option<Candidate>, session: SessionRecord, switches: Switches, snap: Snapshot, f: Forecast,
                      portfolio: seq<Position>, broker: BrokerView, cfg: RiskConfig)
    requires Judge(c, session, switches, snap, f, portfolio, broker, cfg).decision.approved
    ensures var v := Judge(c, session, switches, snap, f, portfolio, broker, cfg);
      && c.Some? && v.switches == map[] && broker.connected && broker.reconciled && broker.equity > 0.0
      && c.value.maxLoss.Finite? && c.value.maxLoss.value > 0.0
      && OpenCount(portfolio) < cfg.portfolio.maxOpenStrategies
      && v.decision.maxContracts >= 1
      && v.decision.maxContracts <= cfg.trade.maxContracts
      && v.decision.maxContracts as real * c.value.maxLoss.value <= AvailableRisk(portfolio, broker.equity, cfg)
      && v.decision.maxContracts as real * c.value.maxLoss.value <= cfg.trade.maxDollarRisk
      && v.decision.maxContracts as real * c.value.maxLoss.value <= AccountCap(broker.equity, cfg.trade)
      && c.value.maxLoss.value <= ExpirationRoom(c.value, portfolio, cfg)
      && v.decision.priceLimit == PriceLimit(c.value)
  {
    hide SizePosition, SwitchesAfter, SoundCandidateVetoes, EnvironmentVetoes, SessionVetoes, PriceLimit,
      AvailableRisk, Caps, OpenCount, RiskForExpiration, TotalOpenRisk, NearExpiry, Sum;
    var k := c.value;
    var available := AvailableRisk(portfolio, broker.equity, cfg);
    var sizing := SizePosition(k.maxLoss, k.liquidityScore, broker.equity, f, available, cfg);
    assert sizing.contracts >= 1;
    assert k.maxLoss.Finite? && k.maxLoss.value > 0.0;
    SizingIsGreatest(k.maxLoss, k.liquidityScore, broker.equity, f, available, cfg, sizing.contracts);
    CapsListed(broker.equity, f, k.liquidityScore, available, cfg);
    AvailableIsNonNegative(portfolio, broker.equity, cfg);
  }

  lemma SwitchesOnlyLatch(s: Switches, session: SessionRecord, snap: Snapshot, f: Forecast, broker: BrokerView,
      cfg: RiskConfig)
    ensures Latched(s, SwitchesAfter(s, session, snap, f, broker, cfg))
  {
    var health := HealthSwitches(s, snap, f, broker, cfg);
    assert Latched(s, health);
    hide HealthSwitches, Min, SessionRecord.Drawdown, SessionRecord.SlippageRatio;
    assert Latched(health, LossSwitches(health, session, broker.equity, cfg));
  }

  lemma HealthTrips(s: Switches, snap: Snapshot, f: Forecast, broker: BrokerView, cfg: RiskConfig)
    ensures forall r :: r in HealthSwitches(s, snap, f, broker, cfg) <==>
      || r in s
      || (r == DataQuality && snap.dataQuality < cfg.trade.minDataQuality)
      || (r == BrokerState && !(broker.connected && broker.reconciled))
      || (r == ModelDisagreement && f.modelDisagreement > cfg.trade.maxModelDisagreement)
      || (r == Calibration && f.calibration < cfg.minCalibration)
  {
  }

  lemma LossesTrip(s: Switches, session: SessionRecord, equity: real, cfg: RiskConfig)
    ensures forall r :: r in LossSwitches(s, session, equity, cfg) <==>
      || r in s
      || (r == DailyLoss && (session.realizedPnl <= -cfg.session.dailyLossLimit
                             || session.realizedPnl <= -(equity * cfg.session.dailyLossFraction)))
      || (r == ConsecutiveLosses && session.consecutiveLosses >= cfg.session.maxConsecutiveLosses)
      || (r == Drawdown && FellTooFar(session.peakEquity, equity, cfg.session.maxDrawdownFraction))
      || (r == Slippage && SlippedTooFar(session.slippage, cfg.maxSlippageRatio))
  {
    DrawdownMeans(session, equity, cfg.session.maxDrawdownFraction);
    SlippageMeans(session, cfg.maxSlippageRatio);
    hide SessionRecord.Drawdown, SessionRecord.SlippageRatio, FellTooFar, SlippedTooFar;
  }

  /** Equity is down from a positive peak by at least the fraction of it. */
  predicate FellTooFar(peak: real, equity: real, fraction: real) {
    fraction <= 0.0 || (peak > 0.0 && peak - equity >= fraction * peak)
  }

  /** The fills recorded cost more than the ratio times what was expected of them; with nothing
      expected the ratio counts as one. */
  predicate SlippedTooFar(samples: seq<(real, real)>, ratio: real) {
    var expected, realized := Sum(Estimates(samples)), Sum(Outcomes(samples));
    if expected > 0.0 then realized > ratio * expected else ratio < 1.0
  }

  function Estimates(samples: seq<(real, real)>): (r: seq<real>)
    ensures |r| == |samples|
  {
    seq(|samples|, i requires 0 <= i < |samples| => samples[i].0)
  }

  function Outcomes(samples: seq<(real, real)>): (r: seq<real>)
    ensures |r| == |samples|
  {
    seq(|samples|, i requires 0 <= i < |samples| => samples[i].1)
  }

  lemma {:induction false} SlippageSums(samples: seq<(real, real)>)
    ensures SumFirst(samples) == Sum(Estimates(samples)) && SumSecond(samples) == Sum(Outcomes(samples))
  {
    if samples != [] {
      SlippageSums(samples[1..]);
      assert Estimates(samples)[1..] == Estimates(samples[1..]);
      assert Outcomes(samples)[1..] == Outcomes(samples[1..]);
    }
  }

  lemma DrawdownMeans(s: SessionRecord, equity: real, fraction: real)
    ensures s.Drawdown(equity) >= fraction <==> FellTooFar(s.peakEquity, equity, fraction)
  {
    if s.peakEquity > 0.0 {
      QuotientAtLeast(s.peakEquity - equity, s.peakEquity, fraction);
    }
  }

  lemma SlippageMeans(s: SessionRecord, ratio: real)
    ensures s.SlippageRatio() > ratio <==> SlippedTooFar(s.slippage, ratio)
  {
    SlippageSums(s.slippage);
    hide Sum, Estimates, Outcomes;
    if SumFirst(s.slippage) > 0.0 {
      QuotientAtLeast(SumSecond(s.slippage), SumFirst(s.slippage), ratio);
    }
  }

  lemma QuotientAtLeast(a: real, b: real, k: real)
    requires b > 0.0
    ensures a / b >= k <==> a >= k * b
    ensures a / b > k <==> a > k * b
  {
    var q := a / b;
    assert Product(q, b) == a && Product(k, b) == k * b;
    hide Product;
    ProductDistributes(b, q, k);
    ProductSigns(q - k, b);
    ProductSigns(k - q, b);
  }

  class RiskEngine {
    const config: RiskConfig
    const killSwitch: KillSwitch
    const session: SessionState

    constructor (config: RiskConfig, killSwitch: KillSwitch, session: SessionState)
      ensures this.config == config && this.killSwitch == killSwitch && this.session == session
    {
      this.config := config;
      this.killSwitch := killSwitch;
      this.session := session;
    }

    method TripWhen(condition: bool, r: SwitchReason, detail: string)
      modifies killSwitch
      ensures killSwitch.active == TripIf(old(killSwitch.active), condition, r, detail)
    {
      if condition {
        killSwitch.Trip(r, detail);
      }
    }

    method UpdateKillSwitches(snap: Snapshot, f: Forecast, broker: BrokerView)
      modifies killSwitch
      ensures killSwitch.active == SwitchesAfter(old(killSwitch.active), session.View(), snap, f, broker, config)
    {
      hide Tripped, TripIf, SessionRecord.Drawdown, SessionRecord.SlippageRatio;
      var record := session.View();
      TripWhen(snap.dataQuality < config.trade.minDataQuality, DataQuality, "data quality below minimum");
      TripWhen(!(broker.connected && broker.reconciled), BrokerState, "broker unhealthy");
      TripWhen(f.modelDisagreement > config.trade.maxModelDisagreement, ModelDisagreement, "dispersion");
      TripWhen(f.calibration < config.minCalibration, Calibration, "calibration quality");
      var lossLimit := Min(config.session.dailyLossLimit, broker.equity * config.session.dailyLossFraction);
      TripWhen(record.realizedPnl <= -lossLimit, DailyLoss, "daily loss");
      TripWhen(record.consecutiveLosses >= config.session.maxConsecutiveLosses, ConsecutiveLosses, "losses in a row");
      TripWhen(record.Drawdown(broker.equity) >= config.session.maxDrawdownFraction, Drawdown, "drawdown from peak");
      TripWhen(record.SlippageRatio() > config.maxSlippageRatio, Slippage, "realized over expected slippage");
    }

    method Evaluate(c: Option<Candidate>, snap: Snapshot, f: Forecast, portfolio: seq<Position>, broker: BrokerView)
      returns (decision: Decision, sizing: Option<Sizing>)
      modifies killSwitch, session
      ensures Judge(c, old(session.View()), old(killSwitch.active), snap, f, portfolio, broker, config)
           == Verdict(session.View(), killSwitch.active, decision, sizing)
    {
      session.RollTo(snap.day, broker.equity);
      UpdateKillSwitches(snap, f, broker);
      var reasons := When(killSwitch.active != map[], KillSwitchActive);
      reasons := reasons + SessionVetoes(session.View(), snap, config);
      reasons := reasons + EnvironmentVetoes(snap, f, config);
      reasons := reasons + BrokerVetoes(broker);
      if c.None? {
        decision, sizing := Decision(false, reasons + [NoCandidate], 0, 0.0), None;
        return;
      }
      reasons := reasons + CandidateVetoes(c.value, config);
      reasons := reasons + PortfolioVetoes(c.value, portfolio, broker.equity, config.portfolio);
      var size := SizePosition(c.value.maxLoss, c.value.liquidityScore, broker.equity, f,
                               AvailableRisk(portfolio, broker.equity, config), config);
      if size.contracts < 1 {
        reasons := reasons + [ZeroContracts];
      }
      var approved := reasons == [];
      decision := Decision(approved, reasons, if approved then size.contracts else 0,
                           if approved then PriceLimit(c.value) else 0.0);
      sizing := Some(size);
    }
  }
}
