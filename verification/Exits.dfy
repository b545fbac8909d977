/** Path-based exit simulation: the whole-array computation against a step-by-step walk. */
module Exits {
  import opened Options
  import opened Market
  import opened Payoff
  import opened Positions
  import opened Vectors

  // ---------------------------------------------------------------- the exit contract

  /** Levels and cutoffs fixed before any path is walked; P&L in dollars, times in minutes. */
  datatype Terms = Terms(target: Bound, stop: real, assignmentCutoff: real, timeStop: real)

  const TINY := 0.000000001

  /** `nearExpiryMinutes` is the time from entry to the nearest expiration. */
  function TermsOf(plan: ExitPlan, entryPerShare: real, maxProfit: Bound, maxLoss: real,
      nearExpiryMinutes: real): Terms {
    Terms(if maxProfit.Infinite? then Infinite else Finite(plan.profitTargetFraction * Max(maxProfit.value, TINY)),
          -plan.StopLossDollars(Max(maxLoss, TINY), Max(0.0, -entryPerShare) * MULTIPLIER),
          nearExpiryMinutes - plan.closeBeforeExpiryMinutes, plan.maxHoldingMinutes)
  }

  predicate HitsTarget(x: Terms, pnl: real) { x.target.Finite? && pnl >= x.target.value }

  predicate HitsStop(x: Terms, pnl: real) { pnl <= x.stop }

  /** The condition that fires at one step, by precedence. */
  function Fires(x: Terms, pnl: real, minutes: real): Option<ExitReason> {
    if minutes >= x.assignmentCutoff then Some(AssignmentRisk)
    else if HitsStop(x, pnl) then Some(RiskStop)
    else if HitsTarget(x, pnl) then Some(ProfitTarget)
    else if minutes >= x.timeStop then Some(TimeStop)
    else None
  }

  /** Walk one path from step `t`: stop at the first step where something fires, or at the end. */
  function Walk(x: Terms, pnl: seq<real>, minutes: seq<real>, t: nat): (r: (nat, ExitReason))
    requires |pnl| == |minutes| && t < |pnl|
    ensures t <= r.0 < |pnl|
    decreases |pnl| - t
  {
    var fired := Fires(x, pnl[t], minutes[t]);
    if fired.Some? then (t, fired.value)
    else if t == |pnl| - 1 then (t, EndOfSession)
    else Walk(x, pnl, minutes, t + 1)
  }

  /** Step `t` is the first at which something fires, or the last step. */
  ghost predicate FirstTrigger(x: Terms, pnl: seq<real>, minutes: seq<real>, t: nat)
    requires |pnl| == |minutes|
  {
    && t < |pnl|
    && (forall s | 0 <= s < t :: Fires(x, pnl[s], minutes[s]).None?)
    && (Fires(x, pnl[t], minutes[t]).Some? || t == |pnl| - 1)
  }

  /** The walk stops at the first trigger and names what fired there. */
  lemma {:induction false} WalkFindsFirstTrigger(x: Terms, pnl: seq<real>, minutes: seq<real>, from: nat, t: nat)
    requires |pnl| == |minutes| && from <= t && FirstTrigger(x, pnl, minutes, t)
    ensures Walk(x, pnl, minutes, from) ==
      (t, if Fires(x, pnl[t], minutes[t]).Some? then Fires(x, pnl[t], minutes[t]).value else EndOfSession)
    decreases t - from
  {
    if from < t {
      WalkFindsFirstTrigger(x, pnl, minutes, from + 1, t);
    }
  }

  /** The stop the simulation prices is the stop the position manager enforces. */
  lemma SimulatedStopIsEnforcedStop(p: Position, maxProfit: Bound, nearExpiryMinutes: real)
    requires p.maxLossPerContract >= 0.000000001
    ensures var terms := TermsOf(p.exitPlan, p.entryPrice, maxProfit, p.maxLossPerContract, nearExpiryMinutes);
      StopThreshold(p) == -terms.stop * p.contracts as real
  {
  }

  lemma ScalingKeepsComparison(a: real, b: real, n: real)
    requires n > 0.0
    ensures a <= b <==> a * n <= b * n
  {
    if a <= b {
      ProductNonNegative(b - a, n);
    } else {
      ProductPositive(a - b, n);
    }
  }

  /** Entry to now, per contract, and what the plan says of it as the simulation reads it. */
  function PerContract(p: Position): real { (p.currentPrice - p.entryPrice) * MULTIPLIER }

  function Held(p: Position, snap: Snapshot): real { snap.timestamp - p.openedAt }

  function SimulatedTerms(p: Position): Terms {
    TermsOf(p.exitPlan, p.entryPrice, p.maxProfitPerContract, p.maxLossPerContract, NearExpiry(p.strategy) - p.openedAt)
  }

  lemma StopsAgree(p: Position)
    requires p.maxLossPerContract >= 0.000000001 && p.contracts >= 1
    ensures HitsStop(SimulatedTerms(p), PerContract(p)) <==>
      p.maxLossPerContract * p.contracts as real > 0.0 && p.UnrealizedPnl() <= -StopThreshold(p)
  {
    hide PlanRecord.StopLossDollars, NearExpiry;
    var stop := SimulatedTerms(p).stop;
    SimulatedStopIsEnforcedStop(p, p.maxProfitPerContract, NearExpiry(p.strategy) - p.openedAt);
    assert StopThreshold(p) == -stop * p.contracts as real;
    ProductPositive(p.maxLossPerContract, p.contracts as real);
    ScalingKeepsComparison(PerContract(p), stop, p.contracts as real);
    hide StopThreshold, SimulatedTerms;
    NegatedProduct(stop, p.contracts as real);
  }

  lemma NegatedProduct(a: real, n: real)
    ensures -(-a * n) == a * n
  {
  }

  lemma TargetsAgree(p: Position)
    requires p.contracts >= 1 && (p.maxProfitPerContract.Finite? ==> p.maxProfitPerContract.value >= 0.000000001)
    ensures HitsTarget(SimulatedTerms(p), PerContract(p)) <==> ReachedTarget(p, p.UnrealizedPnl())
  {
    hide PlanRecord.StopLossDollars, NearExpiry;
    if p.maxProfitPerContract.Finite? {
      var fraction, profit, n := p.exitPlan.profitTargetFraction, p.maxProfitPerContract.value, p.contracts as real;
      ProductPositive(profit, n);
      ScalingKeepsComparison(fraction * profit, PerContract(p), n);
      Regrouped(fraction, profit, n);
    }
  }

  lemma Regrouped(a: real, b: real, c: real)
    ensures a * (b * c) == (a * b) * c
  {
  }

  /** No leg can be assigned before the simulated cutoff. */
  lemma ExposureIsAfterCutoff(p: Position, snap: Snapshot, cfg: ManagerConfig)
    requires SomeLegNear(p.strategy.legs, snap, cfg, p.exitPlan.closeBeforeExpiryMinutes)
    ensures Held(p, snap) >= SimulatedTerms(p).assignmentCutoff
  {
    hide PlanRecord.StopLossDollars;
    var leg :| leg in p.strategy.legs && NearAssignment(leg, snap, cfg, p.exitPlan.closeBeforeExpiryMinutes);
    ExpiryRange(p.strategy);
  }

  /** The live manager does at one quote exactly what the simulation does at one step, for a defined loss
      and profit, if and only if some short leg is exposed to assignment, or neither the assignment
      cutoff nor the end of the session has come. */
  lemma LiveExitIsSimulatedExactlyWhen(p: Position, snap: Snapshot, cfg: ManagerConfig)
    requires p.contracts >= 1 && p.maxLossPerContract >= 0.000000001
    requires p.maxProfitPerContract.Finite? ==> p.maxProfitPerContract.value >= 0.000000001
    ensures var now, plan := Mark(p, snap, cfg), p.exitPlan;
      CheckExit(p, snap, cfg, false) == Fires(SimulatedTerms(p), PerContract(now), Held(p, snap)) <==>
        || SomeLegNear(p.strategy.legs, snap, cfg, plan.closeBeforeExpiryMinutes)
        || (Held(p, snap) < SimulatedTerms(p).assignmentCutoff && snap.minutesToClose > plan.closeBeforeExpiryMinutes)
  {
    hide Mark, StopThreshold, ReachedTarget, AssignmentExposure, SomeLegNear, SimulatedTerms, PerContract, HitsStop,
      HitsTarget;
    var now := Mark(p, snap, cfg);
    ExposureIsSomeLeg(p.strategy.legs, snap, cfg, p.exitPlan.closeBeforeExpiryMinutes);
    if SomeLegNear(p.strategy.legs, snap, cfg, p.exitPlan.closeBeforeExpiryMinutes) {
      ExposureIsAfterCutoff(p, snap, cfg);
    }
    TermsStayOnMarking(p, now);
    StopsAgree(now);
    TargetsAgree(now);
  }

  /** An instance: a call spread sold at 110 and bought at 115, twenty minutes before both legs expire, the
      spot at 100. The simulation exits for assignment risk, the live manager does not. */
  lemma CutoffExitsOnlyInSimulation(p: Position, snap: Snapshot, cfg: ManagerConfig)
    requires |p.strategy.legs| == 2 && p.strategy.legs[0].strike == 110.0 && p.strategy.legs[1].strike == 115.0
    requires p.strategy.legs[0].quantity == -1 && p.strategy.legs[1].quantity == 1
    requires forall l | l in p.strategy.legs :: l.right == Call && l.expiry == 1000.0
    requires p.openedAt == 0.0 && p.exitPlan.closeBeforeExpiryMinutes == 30.0
    requires snap.timestamp == 980.0 && snap.spot == 100.0 && cfg.assignmentBuffer == 0.01
    ensures Fires(SimulatedTerms(p), PerContract(Mark(p, snap, cfg)), Held(p, snap)) == Some(AssignmentRisk)
    ensures CheckExit(p, snap, cfg, false) != Some(AssignmentRisk)
  {
    var es := Expiries(p.strategy.legs);
    assert es[0] in es;
    assert NearExpiry(p.strategy) == 1000.0;
    hide Expiries, NearExpiry, PlanRecord.StopLossDollars, Mark, PerContract;
    assert SimulatedTerms(p).assignmentCutoff == 970.0;
    ExposureIsSomeLeg(p.strategy.legs, snap, cfg, 30.0);
    assert forall l | l in p.strategy.legs :: l == p.strategy.legs[0] || l == p.strategy.legs[1];
    hide AssignmentExposure, StopThreshold, ReachedTarget;
  }

  lemma TermsStayOnMarking(p: Position, now: Position)
    requires p.SameTerms(now)
    ensures SimulatedTerms(now) == SimulatedTerms(p) && StopThreshold(now) == StopThreshold(p)
    ensures forall pnl: real :: ReachedTarget(now, pnl) == ReachedTarget(p, pnl)
    ensures SimulatedTerms(p).timeStop == p.exitPlan.maxHoldingMinutes
  {
    hide PlanRecord.StopLossDollars, NearExpiry;
  }

  // ---------------------------------------------------------------- the whole-array simulation

  datatype PathOutcome = PathOutcome(pnl: real, exitStep: nat, reason: ExitReason, holdingMinutes: real,
      favourable: real, adverse: real)

  /** Structure values per path and step, as P&L against the entry. */
  function PnlRow(values: seq<real>, entryPerShare: real): (r: seq<real>)
    ensures |r| == |values|
  {
    seq(|values|, t requires 0 <= t < |values| => (values[t] - entryPerShare) * MULTIPLIER)
  }

  /** A simulated step shows per contract what the live manager would book as unrealised at that value. */
  lemma SimulatedPnlIsUnrealized(p: Position, values: seq<real>, t: nat, at: Instant)
    requires t < |values|
    ensures Product(PnlRow(values, p.entryPrice)[t], p.contracts as real) == p.Marked(values[t], at).UnrealizedPnl()
  {
  }

  /** `m` is the greatest (or, mirrored, least) value of a nonempty prefix. */
  ghost predicate IsGreatest(m: real, s: seq<real>) { m in s && forall x | x in s :: x <= m }

  ghost predicate IsLeast(m: real, s: seq<real>) { m in s && forall x | x in s :: m <= x }

  /** What one path's outcome must be. */
  ghost predicate IsOutcome(o: PathOutcome, x: Terms, pnl: seq<real>, minutes: seq<real>, cost: real)
    requires |pnl| == |minutes| > 0
  {
    && (o.exitStep, o.reason) == Walk(x, pnl, minutes, 0)
    && o.exitStep < |pnl| && o.pnl == pnl[o.exitStep] - cost && o.holdingMinutes == minutes[o.exitStep]
    && IsGreatest(o.favourable, pnl[..o.exitStep + 1]) && IsLeast(o.adverse, pnl[..o.exitStep + 1])
  }

  /** The realised P&L before costs lies between the excursions of the holding period. */
  lemma ExcursionsBracketPnl(o: PathOutcome, x: Terms, pnl: seq<real>, minutes: seq<real>, cost: real)
    requires |pnl| == |minutes| > 0 && IsOutcome(o, x, pnl, minutes, cost)
    ensures o.adverse <= o.pnl + cost <= o.favourable
  {
    var held := pnl[..o.exitStep + 1];
    assert pnl[o.exitStep] == held[o.exitStep] && held[o.exitStep] in held;
  }

  /** Fill one column of the P&L matrix. */
  method FillColumn(matrix: array2<real>, values: seq<seq<real>>, entryPerShare: real, t: nat)
    requires matrix.Length0 == |values| && t < matrix.Length1
    requires forall i | 0 <= i < |values| :: |values[i]| == matrix.Length1
    modifies matrix
    ensures forall i | 0 <= i < |values| :: matrix[i, t] == PnlRow(values[i], entryPerShare)[t]
    ensures forall i, s | 0 <= i < |values| && 0 <= s < matrix.Length1 && s != t :: matrix[i, s] == old(matrix[i, s])
  {
    for i := 0 to |values|
      invariant forall k | 0 <= k < i :: matrix[k, t] == PnlRow(values[k], entryPerShare)[t]
      invariant forall k, s | 0 <= k < |values| && 0 <= s < matrix.Length1 && s != t ::
        matrix[k, s] == old(matrix[k, s])
    {
      matrix[i, t] := (values[i][t] - entryPerShare) * MULTIPLIER;
    }
  }

  /** First true entry of row `i`; the last column is always true. */
  method FirstTrue(triggered: array2<bool>, i: nat) returns (t: nat)
    requires i < triggered.Length0 && 0 < triggered.Length1 && triggered[i, triggered.Length1 - 1]
    ensures t < triggered.Length1 && triggered[i, t] && forall s | 0 <= s < t :: !triggered[i, s]
  {
    t := 0;
    while !triggered[i, t]
      invariant t < triggered.Length1 && forall s | 0 <= s < t :: !triggered[i, s]
      decreases triggered.Length1 - t
    {
      t := t + 1;
    }
  }

  /** Greatest and least value of a prefix. */
  method Excursions(pnl: seq<real>, last: nat) returns (favourable: real, adverse: real)
    requires last < |pnl|
    ensures IsGreatest(favourable, pnl[..last + 1]) && IsLeast(adverse, pnl[..last + 1])
  {
    favourable, adverse := pnl[0], pnl[0];
    for t := 1 to last + 1
      invariant IsGreatest(favourable, pnl[..t]) && IsLeast(adverse, pnl[..t])
    {
      assert pnl[..t + 1] == pnl[..t] + [pnl[t]];
      favourable, adverse := Max(favourable, pnl[t]), Min(adverse, pnl[t]);
    }
  }

  /** Attribution by the conditions that hold at the exit step. */
  method ResolveReason(x: Terms, pnl: real, minutes: real) returns (reason: ExitReason)
    ensures reason == if Fires(x, pnl, minutes).Some? then Fires(x, pnl, minutes).value else EndOfSession
  {
    if minutes >= x.assignmentCutoff {
      reason := AssignmentRisk;
    } else if HitsStop(x, pnl) {
      reason := RiskStop;
    } else if HitsTarget(x, pnl) {
      reason := ProfitTarget;
    } else if minutes >= x.timeStop {
      reason := TimeStop;
    } else {
      reason := EndOfSession;
    }
  }

  /** Mark every step of row `i` at which any condition holds, and the last. */
  method MarkTriggers(triggered: array2<bool>, x: Terms, pnl: seq<real>, minutes: seq<real>, i: nat)
    requires i < triggered.Length0 && |pnl| == |minutes| == triggered.Length1 > 0
    modifies triggered
    ensures forall t | 0 <= t < |pnl| :: triggered[i, t] == (Fires(x, pnl[t], minutes[t]).Some? || t == |pnl| - 1)
  {
    for t := 0 to |pnl|
      invariant forall s | 0 <= s < t :: triggered[i, s] == Fires(x, pnl[s], minutes[s]).Some?
    {
      triggered[i, t] := HitsTarget(x, pnl[t]) || HitsStop(x, pnl[t])
                         || minutes[t] >= x.assignmentCutoff || minutes[t] >= x.timeStop;
    }
    triggered[i, |pnl| - 1] := true;
  }

  /** The whole-array simulation gives, path by path, exactly what the step-by-step walk gives. */
  method SimulateExits(values: seq<seq<real>>, minutes: seq<real>, x: Terms, entryPerShare: real, cost: real)
    returns (outcomes: seq<PathOutcome>)
    requires |minutes| > 0 && forall i | 0 <= i < |values| :: |values[i]| == |minutes|
    ensures |outcomes| == |values|
    ensures forall i | 0 <= i < |values| :: IsOutcome(outcomes[i], x, PnlRow(values[i], entryPerShare), minutes, cost)
  {
    var matrix := new real[|values|, |minutes|];
    for t := 0 to |minutes|
      invariant forall i, s | 0 <= i < |values| && 0 <= s < t :: matrix[i, s] == PnlRow(values[i], entryPerShare)[s]
    {
      FillColumn(matrix, values, entryPerShare, t);
    }
    var triggered := new bool[|values|, |minutes|];
    outcomes := [];
    for i := 0 to |values|
      invariant |outcomes| == i
      invariant forall k, s | 0 <= k < |values| && 0 <= s < |minutes| ::
        matrix[k, s] == PnlRow(values[k], entryPerShare)[s]
      invariant forall k | 0 <= k < i :: IsOutcome(outcomes[k], x, PnlRow(values[k], entryPerShare), minutes, cost)
    {
      hide IsOutcome, Fires;
      ghost var row := PnlRow(values[i], entryPerShare);
      var pnl := seq(|minutes|, t requires 0 <= t < |minutes| reads matrix => matrix[i, t]);
      assert pnl == row;
      var outcome := OnePath(triggered, x, pnl, minutes, i, cost);
      outcomes := outcomes + [outcome];
    }
  }

  method OnePath(triggered: array2<bool>, x: Terms, pnl: seq<real>, minutes: seq<real>, i: nat,
      cost: real) returns (o: PathOutcome)
    requires i < triggered.Length0 && |pnl| == |minutes| == triggered.Length1 > 0
    modifies triggered
    ensures IsOutcome(o, x, pnl, minutes, cost)
  {
    hide Fires;
    MarkTriggers(triggered, x, pnl, minutes, i);
    var t := FirstTrue(triggered, i);
    var reason := ResolveReason(x, pnl[t], minutes[t]);
    WalkFindsFirstTrigger(x, pnl, minutes, 0, t);
    var favourable, adverse := Excursions(pnl, t);
    o := PathOutcome(pnl[t] - cost, t, reason, minutes[t], favourable, adverse);
  }

  // ---------------------------------------------------------------- thinning the steps

  function Ceil(n: nat, m: nat): nat
    requires m > 0
  {
    (n + m - 1) / m
  }

  /** Every `stride`-th step from `at`, and the last one `n`. */
  function KeptSteps(n: nat, stride: nat, at: nat): (r: seq<nat>)
    requires stride > 0 && at <= n
    ensures r != [] && r[0] == at && r[|r| - 1] == n
    ensures forall j | 0 <= j < |r| :: at <= r[j] <= n
    ensures forall j, k | 0 <= j < k < |r| :: r[j] < r[k]
    decreases n - at
  {
    if at == n then [n] else [at] + KeptSteps(n, stride, if at + stride <= n then at + stride else n)
  }

  /** Steps kept when at most `maxSteps` are wanted out of `n`. */
  function Subsample(n: nat, maxSteps: nat): (r: seq<nat>)
    requires maxSteps > 0
    ensures r != [] && r[0] == 0 && r[|r| - 1] == n
    ensures forall j | 0 <= j < |r| :: r[j] <= n
    ensures forall j, k | 0 <= j < k < |r| :: r[j] < r[k]
  {
    if n > maxSteps then KeptSteps(n, Ceil(n, maxSteps), 0) else seq(n + 1, i requires 0 <= i <= n => i)
  }

  lemma {:induction false} KeptStepsAreFew(n: nat, stride: nat, at: nat, left: nat)
    requires stride > 0 && at <= n && n - at <= left * stride
    ensures |KeptSteps(n, stride, at)| <= left + 1
    decreases n - at
  {
    if at < n {
      assert left > 0;
      assert (left - 1) * stride == left * stride - stride;
      KeptStepsAreFew(n, stride, if at + stride <= n then at + stride else n, left - 1);
    }
  }

  lemma CeilCovers(n: nat, m: nat)
    requires m > 0
    ensures n <= m * Ceil(n, m) && (n > 0 ==> Ceil(n, m) > 0 && m * (Ceil(n, m) - 1) < n)
  {
    var q := (n + m - 1) / m;
    assert n + m - 1 == m * q + (n + m - 1) % m;
  }

  /** Thinning leaves at most `maxSteps` steps. */
  lemma SubsampleIsThin(n: nat, maxSteps: nat)
    requires maxSteps > 0
    ensures |Subsample(n, maxSteps)| - 1 <= maxSteps
  {
    if n > maxSteps {
      CeilCovers(n, maxSteps);
      KeptStepsAreFew(n, Ceil(n, maxSteps), 0, maxSteps);
    }
  }

  ghost predicate IsMultiple(t: int, stride: int) { exists k: nat :: t == Times(k, stride) }

  function Times(k: int, stride: int): int { k * stride }

  lemma TimesGrows(j: int, k: int, stride: int)
    requires stride > 0
    ensures j <= k ==> Times(j, stride) <= Times(k, stride)
    ensures Times(j + 1, stride) == Times(j, stride) + stride
    ensures Times(0, stride) == 0 && Times(k, 1) == k
  {
  }

  lemma NoMultipleBetween(t: nat, at: nat, stride: nat)
    requires stride > 0 && IsMultiple(at, stride) && at < t < at + stride
    ensures !IsMultiple(t, stride)
  {
    hide Times;
    var j: nat :| at == Times(j, stride);
    forall k: nat ensures t != Times(k, stride) {
      TimesGrows(k, j, stride);
      TimesGrows(j + 1, k, stride);
      TimesGrows(j, k, stride);
    }
  }

  lemma KeptFrom(n: nat, stride: nat, at: nat, t: nat)
    requires stride > 0 && at < n
    ensures t in KeptSteps(n, stride, at) <==>
      t == at || t in KeptSteps(n, stride, if at + stride <= n then at + stride else n)
  {
  }

  lemma NextMultiple(at: nat, stride: nat)
    requires IsMultiple(at, stride)
    ensures IsMultiple(at + stride, stride)
  {
    var j: nat :| at == Times(j, stride);
    assert at + stride == Times(j + 1, stride);
  }

  lemma {:induction false} KeptStepsAre(n: nat, stride: nat, at: nat, t: nat)
    requires stride > 0 && at <= n && (at == n || IsMultiple(at, stride))
    ensures t in KeptSteps(n, stride, at) <==> t == n || (at <= t < n && IsMultiple(t, stride))
    decreases n - at
  {
    hide Times, IsMultiple, KeptSteps;
    if at == n {
      LastKept(n, stride, t);
    } else {
      KeptFrom(n, stride, at, t);
      NextMultiple(at, stride);
      KeptStepsAre(n, stride, if at + stride <= n then at + stride else n, t);
      if at < t < at + stride { NoMultipleBetween(t, at, stride); }
    }
  }

  lemma LastKept(n: nat, stride: nat, t: nat)
    requires stride > 0
    ensures t in KeptSteps(n, stride, n) <==> t == n
  {
  }

  /** The steps kept are the multiples of the least stride that leaves few enough, and the last step. */
  lemma SubsampleIsExact(n: nat, maxSteps: nat) returns (stride: nat)
    requires maxSteps > 0
    ensures stride > 0 && n <= maxSteps * stride && (stride > 1 ==> maxSteps * (stride - 1) < n)
    ensures forall t: nat :: t in Subsample(n, maxSteps) <==> t == n || (t < n && IsMultiple(t, stride))
  {
    if n > maxSteps {
      stride := Ceil(n, maxSteps);
      CeilCovers(n, maxSteps);
      assert 0 == Times(0, stride);
      hide Ceil;
      forall t: nat ensures t in Subsample(n, maxSteps) <==> t == n || (t < n && IsMultiple(t, stride)) {
        KeptStepsAre(n, stride, 0, t);
      }
    } else {
      stride := 1;
      forall t: nat ensures t in Subsample(n, maxSteps) <==> t == n || (t < n && IsMultiple(t, 1)) {
        assert t == Times(t, 1);
        if t <= n { assert Subsample(n, maxSteps)[t] == t; }
      }
    }
  }

  function Pick(s: seq<real>, steps: seq<nat>): (r: seq<real>)
    requires forall j | 0 <= j < |steps| :: steps[j] < |s|
    ensures |r| == |steps|
  {
    seq(|steps|, j requires 0 <= j < |steps| => s[steps[j]])
  }

  lemma {:induction false} WalkIsFirstTrigger(x: Terms, pnl: seq<real>, minutes: seq<real>, from: nat)
    requires |pnl| == |minutes| && from < |pnl|
    requires forall s | 0 <= s < from :: Fires(x, pnl[s], minutes[s]).None?
    ensures FirstTrigger(x, pnl, minutes, Walk(x, pnl, minutes, from).0)
    decreases |pnl| - from
  {
    hide Fires;
    if Fires(x, pnl[from], minutes[from]).None? && from < |pnl| - 1 {
      WalkIsFirstTrigger(x, pnl, minutes, from + 1);
    }
  }

  /** Watching fewer steps never makes a path exit earlier. */
  lemma ThinningNeverExitsEarlier(x: Terms, pnl: seq<real>, minutes: seq<real>, maxSteps: nat)
    requires |pnl| == |minutes| > 0 && maxSteps > 0
    requires forall s, t | 0 <= s <= t < |minutes| :: minutes[s] <= minutes[t]
    ensures var steps := Subsample(|pnl| - 1, maxSteps);
      var coarse := Walk(x, Pick(pnl, steps), Pick(minutes, steps), 0).0;
      && Walk(x, pnl, minutes, 0).0 <= steps[coarse]
      && minutes[Walk(x, pnl, minutes, 0).0] <= minutes[steps[coarse]]
  {
    hide Fires;
    var steps := Subsample(|pnl| - 1, maxSteps);
    var coarse := Walk(x, Pick(pnl, steps), Pick(minutes, steps), 0).0;
    WalkIsFirstTrigger(x, Pick(pnl, steps), Pick(minutes, steps), 0);
    WalkIsFirstTrigger(x, pnl, minutes, 0);
    assert Fires(x, Pick(pnl, steps)[coarse], Pick(minutes, steps)[coarse])
      == Fires(x, pnl[steps[coarse]], minutes[steps[coarse]]);
  }

  // ---------------------------------------------------------------- shorter horizons

  /** Entries at or before the horizon of an ascending list of times. */
  function UpTo(times: seq<real>, horizon: real): (n: nat)
    ensures n <= |times|
  {
    if times == [] || times[0] > horizon then 0 else 1 + UpTo(times[1..], horizon)
  }

  /** Columns kept by a truncation: at least two, at most all. */
  function Cutoff(times: seq<real>, horizon: real): (n: nat)
    requires |times| >= 2
    ensures 2 <= n <= |times|
  {
    if UpTo(times, horizon) < 2 then 2 else UpTo(times, horizon)
  }

  lemma {:induction false} UpToIsExact(times: seq<real>, horizon: real, i: nat)
    requires i < |times| && forall s, t | 0 <= s <= t < |times| :: times[s] <= times[t]
    ensures i < UpTo(times, horizon) <==> times[i] <= horizon
  {
    if times[0] <= horizon && i > 0 {
      UpToIsExact(times[1..], horizon, i - 1);
    }
  }

  /** A truncation keeps exactly the steps within the horizon, and never fewer than two. */
  lemma TruncationIsExact(times: seq<real>, horizon: real, i: nat)
    requires |times| >= 2 && i < |times| && forall s, t | 0 <= s <= t < |times| :: times[s] <= times[t]
    ensures i < Cutoff(times, horizon) <==> times[i] <= horizon || i < 2
  {
    UpToIsExact(times, horizon, i);
  }

  /** The path reaches the barrier at some step. */
  predicate TouchesUp(path: seq<real>, barrier: real) { exists t :: 0 <= t < |path| && path[t] >= barrier }

  predicate TouchesDown(path: seq<real>, barrier: real) { exists t :: 0 <= t < |path| && path[t] <= barrier }

  /** Paths that touch at least one of the barriers; the rest stay strictly between them. */
  function TouchCount(paths: seq<seq<real>>, lower: real, upper: real): nat {
    if paths == [] then 0
    else
      (if TouchesUp(paths[0], upper) || TouchesDown(paths[0], lower) then 1 else 0)
      + TouchCount(paths[1..], lower, upper)
  }

  function TruncatedTo(paths: seq<seq<real>>, n: nat): (r: seq<seq<real>>)
    requires forall i | 0 <= i < |paths| :: n <= |paths[i]|
    ensures |r| == |paths|
  {
    seq(|paths|, i requires 0 <= i < |paths| => paths[i][..n])
  }

  /** A path counts exactly when it leaves the open band, and each counts once. */
  lemma {:induction false} TouchCountAddsUp(paths: seq<seq<real>>, path: seq<real>, lower: real, upper: real)
    ensures TouchCount(paths + [path], lower, upper)
         == TouchCount(paths, lower, upper) + (if forall x | x in path :: lower < x < upper then 0 else 1)
    ensures TouchCount([], lower, upper) == 0
  {
    hide TouchesUp, TouchesDown;
    if paths == [] {
      assert (paths + [path])[1..] == [];
      BandIsLeft(path, lower, upper);
    } else {
      assert (paths + [path])[1..] == paths[1..] + [path];
      TouchCountAddsUp(paths[1..], path, lower, upper);
    }
  }

  lemma BandIsLeft(path: seq<real>, lower: real, upper: real)
    ensures TouchesUp(path, upper) || TouchesDown(path, lower) <==> !(forall x | x in path :: lower < x < upper)
  {
    assert forall t | 0 <= t < |path| :: path[t] in path;
    if x :| x in path && !(lower < x < upper) {
      var t :| 0 <= t < |path| && path[t] == x;
    }
  }

  /** On the same paths a shorter horizon never touches more often, so no-touch probability never falls. */
  lemma {:induction false} ShorterHorizonTouchesLess(paths: seq<seq<real>>, n: nat, m: nat, lower: real, upper: real)
    requires n <= m && forall i | 0 <= i < |paths| :: m <= |paths[i]|
    ensures TouchCount(TruncatedTo(paths, n), lower, upper) <= TouchCount(TruncatedTo(paths, m), lower, upper)
  {
    if paths != [] {
      ShorterHorizonTouchesLess(paths[1..], n, m, lower, upper);
      assert TruncatedTo(paths, n)[1..] == TruncatedTo(paths[1..], n);
      assert TruncatedTo(paths, m)[1..] == TruncatedTo(paths[1..], m);
      var short, long := paths[0][..n], paths[0][..m];
      assert forall t | 0 <= t < n :: short[t] == long[t];
    }
  }
}
