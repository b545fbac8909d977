/** Open positions, their exit contracts, and the rules that close them. */
module Positions {
  import opened Options
  import opened Market
  import opened Costs
  import opened Payoff
  import opened Vectors

  datatype ExitReason = ProfitTarget | RiskStop | TimeStop | EndOfSession | AssignmentRisk | KillSwitchExit | Expiration
    | StateInvalidation

  datatype PlanRecord = PlanRecord(profitTargetFraction: real, stopLossFraction: real, maxHoldingMinutes: real,
                                   invalidationStates: seq<string>, closeBeforeExpiryMinutes: real,
                                   minForecastProbability: real, stopLossCreditMultiple: Option<real>)
  {
    predicate IsValid() {
      && 0.0 < profitTargetFraction <= 1.0
      && 0.0 < stopLossFraction <= 1.0
      && maxHoldingMinutes > 0.0
      && (stopLossCreditMultiple.Some? ==> stopLossCreditMultiple.value > 0.0)
    }

    /** Loss, in positive dollars, at which the risk stop fires. */
    function StopLossDollars(maxLoss: real, creditReceived: real): real {
      if stopLossCreditMultiple.Some? && creditReceived > 0.0
      then Min(stopLossCreditMultiple.value * creditReceived, maxLoss)
      else stopLossFraction * maxLoss
    }
  }

  type ExitPlan = p: PlanRecord | p.IsValid() witness PlanRecord(1.0, 1.0, 1.0, [], 30.0, 0.0, None)

  type Id = nat

  datatype Position = Position(id: Id, openedAt: Instant, strategy: Strategy, contracts: int, entryPrice: real,
                               maxLossPerContract: real, maxProfitPerContract: Bound, exitPlan: ExitPlan,
                               entryCommission: real, currentPrice: real, markedAt: Option<Instant>,
                               realizedPnl: real, exitReason: Option<ExitReason>, closedAt: Option<Instant>)
  {
    predicate IsOpen() { closedAt.None? }

    /** Worst-case dollars including entry costs. */
    function TotalMaxLoss(): real { maxLossPerContract * contracts as real + entryCommission }

    function UnrealizedPnl(): real { (currentPrice - entryPrice) * MULTIPLIER * contracts as real }

    function Marked(price: real, at: Instant): Position { this.(currentPrice := price, markedAt := Some(at)) }

    function Closed(at: Instant, pnl: real, reason: ExitReason): Position {
      this.(closedAt := Some(at), realizedPnl := pnl, exitReason := Some(reason))
    }

    /** The terms fixed at entry. */
    ghost predicate SameTerms(other: Position) {
      && id == other.id && openedAt == other.openedAt && strategy == other.strategy && contracts == other.contracts
      && entryPrice == other.entryPrice && maxLossPerContract == other.maxLossPerContract
      && maxProfitPerContract == other.maxProfitPerContract && exitPlan == other.exitPlan
      && entryCommission == other.entryCommission
    }
  }

  // ---------------------------------------------------------------- the position manager

  datatype ManagerConfig = ManagerConfig(costs: CostModel, assignmentBuffer: real)

  /** Net price to close now, or none when a leg is unquoted. */
  function ClosePrice(p: Position, snap: Snapshot, cfg: ManagerConfig): Option<real> {
    var quotes := QuotesFor(snap.chain, p.strategy.legs);
    if quotes.None? then None else Some(ExitPrice(p.strategy.legs, quotes.value, cfg.costs))
  }

  function Mark(p: Position, snap: Snapshot, cfg: ManagerConfig): (r: Position)
    ensures r.SameTerms(p) && r.closedAt == p.closedAt && r.realizedPnl == p.realizedPnl && r.exitReason == p.exitReason
  {
    var price := ClosePrice(p, snap, cfg);
    if price.None? then p else p.Marked(price.value, snap.timestamp)
  }

  /** The mark values a position at what buying its inverse would cost at this snapshot: unrealised profit
      is the cash of closing there, and an unquoted leg leaves the last mark. */
  lemma MarkIsClosingCash(p: Position, snap: Snapshot, cfg: ManagerConfig)
    ensures var quotes, marked := QuotesFor(snap.chain, p.strategy.legs), Mark(p, snap, cfg);
      if quotes.None? then marked == p
      else
        var cost := AchievablePrice(InvertedLegs(p.strategy.legs), quotes.value, cfg.costs);
        && marked.markedAt == Some(snap.timestamp) && marked.currentPrice == -cost
        && marked.UnrealizedPnl() == -(cost + p.entryPrice) * MULTIPLIER * p.contracts as real
  {
    var quotes := QuotesFor(snap.chain, p.strategy.legs);
    if quotes.Some? {
      ClosingPriceIsExitPrice(p.strategy.legs, quotes.value, cfg.costs);
    }
  }

  /** A short leg at or near the money too close to its expiry. */
  function AssignmentExposure(legs: seq<Leg>, snap: Snapshot, cfg: ManagerConfig, cutoff: real): bool {
    if legs == [] then false
    else
      var leg, buffer := legs[0], snap.spot * cfg.assignmentBuffer;
      var inTheMoney := if leg.right == Call then snap.spot > leg.strike - buffer else snap.spot < leg.strike + buffer;
      (leg.quantity < 0 && inTheMoney && leg.expiry - snap.timestamp <= cutoff)
      || AssignmentExposure(legs[1..], snap, cfg, cutoff)
  }

  function StopThreshold(p: Position): real {
    var credit := Max(0.0, -p.entryPrice) * MULTIPLIER;
    p.exitPlan.StopLossDollars(p.maxLossPerContract, credit) * p.contracts as real
  }

  /** The first exit condition met, in the fixed precedence; none when the position stays on.
      Called without a forecast, as the pipeline does. */
  function CheckExit(p: Position, snap: Snapshot, cfg: ManagerConfig, killSwitchActive: bool): Option<ExitReason> {
    var marked := Mark(p, snap, cfg);
    var pnl := marked.UnrealizedPnl();
    var plan := p.exitPlan;
    if killSwitchActive then Some(KillSwitchExit)
    else if AssignmentExposure(p.strategy.legs, snap, cfg, plan.closeBeforeExpiryMinutes) then Some(AssignmentRisk)
    else if snap.minutesToClose <= plan.closeBeforeExpiryMinutes then Some(EndOfSession)
    else if p.maxLossPerContract * p.contracts as real > 0.0 && pnl <= -StopThreshold(p) then Some(RiskStop)
    else if ReachedTarget(p, pnl) then Some(ProfitTarget)
    else if snap.timestamp - p.openedAt >= plan.maxHoldingMinutes then Some(TimeStop)
    else None
  }

  predicate ReachedTarget(p: Position, pnl: real) {
    && p.maxProfitPerContract.Finite?
    && p.maxProfitPerContract.value * p.contracts as real > 0.0
    && pnl >= p.exitPlan.profitTargetFraction * (p.maxProfitPerContract.value * p.contracts as real)
  }

  /** A short leg within the buffer of the money and of its expiry. */
  predicate NearAssignment(leg: Leg, snap: Snapshot, cfg: ManagerConfig, cutoff: real) {
    var buffer := snap.spot * cfg.assignmentBuffer;
    && leg.quantity < 0 && leg.expiry - snap.timestamp <= cutoff
    && (leg.right == Call ==> snap.spot > leg.strike - buffer) && (leg.right == Put ==> snap.spot < leg.strike + buffer)
  }

  ghost predicate SomeLegNear(legs: seq<Leg>, snap: Snapshot, cfg: ManagerConfig, cutoff: real) {
    exists l :: l in legs && NearAssignment(l, snap, cfg, cutoff)
  }

  lemma ExposureSplits(legs: seq<Leg>, snap: Snapshot, cfg: ManagerConfig, cutoff: real)
    requires legs != []
    ensures AssignmentExposure(legs, snap, cfg, cutoff) <==>
      NearAssignment(legs[0], snap, cfg, cutoff) || AssignmentExposure(legs[1..], snap, cfg, cutoff)
  {
  }

  lemma SomeLegSplits(legs: seq<Leg>, snap: Snapshot, cfg: ManagerConfig, cutoff: real)
    requires legs != []
    ensures SomeLegNear(legs, snap, cfg, cutoff) <==>
      NearAssignment(legs[0], snap, cfg, cutoff) || SomeLegNear(legs[1..], snap, cfg, cutoff)
  {
    hide NearAssignment;
    assert forall l :: l in legs <==> l == legs[0] || l in legs[1..];
  }

  lemma {:induction false} ExposureIsSomeLeg(legs: seq<Leg>, snap: Snapshot, cfg: ManagerConfig, cutoff: real)
    ensures AssignmentExposure(legs, snap, cfg, cutoff) <==> SomeLegNear(legs, snap, cfg, cutoff)
  {
    if legs != [] {
      hide AssignmentExposure, SomeLegNear, NearAssignment;
      ExposureIsSomeLeg(legs[1..], snap, cfg, cutoff);
      ExposureSplits(legs, snap, cfg, cutoff);
      SomeLegSplits(legs, snap, cfg, cutoff);
    }
  }

  // ---------------------------------------------------------------- which exit is taken

  function Precedence(r: ExitReason): nat {
    match r
    case KillSwitchExit => 0
    case AssignmentRisk => 1
    case EndOfSession => 2
    case RiskStop => 3
    case ProfitTarget => 4
    case TimeStop => 5
    case _ => 6
  }

  /** The condition behind a reason, on the profit `pnl` in dollars. */
  ghost predicate CallsFor(r: ExitReason, p: Position, pnl: real, snap: Snapshot, cfg: ManagerConfig,
      killSwitchActive: bool) {
    match r
    case KillSwitchExit => killSwitchActive
    case AssignmentRisk => SomeLegNear(p.strategy.legs, snap, cfg, p.exitPlan.closeBeforeExpiryMinutes)
    case EndOfSession => snap.minutesToClose <= p.exitPlan.closeBeforeExpiryMinutes
    case RiskStop => p.maxLossPerContract > 0.0 && pnl <= -StopThreshold(p)
    case ProfitTarget =>
      p.maxProfitPerContract.Finite? && p.maxProfitPerContract.value > 0.0
      && pnl >= p.exitPlan.profitTargetFraction * (p.maxProfitPerContract.value * p.contracts as real)
    case TimeStop => snap.timestamp >= p.openedAt + p.exitPlan.maxHoldingMinutes
    case _ => false
  }

  lemma PositiveTimes(x: real, n: int)
    requires n >= 1
    ensures x * n as real > 0.0 <==> x > 0.0
  {
    if x > 0.0 { ProductPositive(x, n as real); } else { ProductNonNegative(-x, n as real); }
  }

  /** The exit taken is the first in precedence whose condition holds at the marked profit. */
  lemma ExitIsFirstCalled(p: Position, snap: Snapshot, cfg: ManagerConfig, killSwitchActive: bool, r: ExitReason)
    requires p.contracts >= 1
    ensures var pnl := Mark(p, snap, cfg).UnrealizedPnl();
      CheckExit(p, snap, cfg, killSwitchActive) == Some(r) <==>
        && CallsFor(r, p, pnl, snap, cfg, killSwitchActive)
        && forall q | Precedence(q) < Precedence(r) :: !CallsFor(q, p, pnl, snap, cfg, killSwitchActive)
  {
    ExposureIsSomeLeg(p.strategy.legs, snap, cfg, p.exitPlan.closeBeforeExpiryMinutes);
    PositiveTimes(p.maxLossPerContract, p.contracts);
    if p.maxProfitPerContract.Finite? { PositiveTimes(p.maxProfitPerContract.value, p.contracts); }
    hide Mark, StopThreshold, AssignmentExposure, SomeLegNear, Position.UnrealizedPnl;
    var pnl := Mark(p, snap, cfg).UnrealizedPnl();
    var first := CheckExit(p, snap, cfg, killSwitchActive);
    forall q | CallsFor(q, p, pnl, snap, cfg, killSwitchActive)
      ensures first.Some? && Precedence(first.value) <= Precedence(q) {
    }
    assert first.Some? ==> CallsFor(first.value, p, pnl, snap, cfg, killSwitchActive);
    SamePrecedenceIsSame(r, if first.Some? then first.value else r);
  }

  lemma SamePrecedenceIsSame(a: ExitReason, b: ExitReason)
    ensures Precedence(a) == Precedence(b) < 6 ==> a == b
  {
  }

  lemma FractionOf(f: real, x: real)
    requires 0.0 < f <= 1.0 && x > 0.0
    ensures 0.0 < f * x <= x
  {
    ProductNonNegative(1.0 - f, x);
    ProductPositive(f, x);
  }

  /** The enforced stop is a positive loss no greater than the maximum loss, so it can be reached. */
  lemma StopIsWithinMaxLoss(p: Position)
    requires p.maxLossPerContract > 0.0 && p.contracts >= 1
    ensures 0.0 < StopThreshold(p) <= p.maxLossPerContract * p.contracts as real
  {
    hide PlanRecord.StopLossDollars, Max;
    var credit := Max(0.0, -p.entryPrice) * MULTIPLIER;
    StopIsAFraction(p.exitPlan, p.maxLossPerContract, credit);
    ScaleKeepsOrder(p.exitPlan.StopLossDollars(p.maxLossPerContract, credit), p.maxLossPerContract,
                    p.contracts as real);
  }

  lemma StopIsAFraction(plan: ExitPlan, maxLoss: real, credit: real)
    requires maxLoss > 0.0
    ensures 0.0 < plan.StopLossDollars(maxLoss, credit) <= maxLoss
  {
    FractionOf(plan.stopLossFraction, maxLoss);
    if plan.stopLossCreditMultiple.Some? && credit > 0.0 {
      ProductPositive(plan.stopLossCreditMultiple.value, credit);
    }
  }

  lemma ScaleKeepsOrder(a: real, b: real, n: real)
    requires 0.0 < a <= b && n > 0.0
    ensures 0.0 < a * n <= b * n
  {
    ProductPositive(a, n);
    ProductNonNegative(b - a, n);
  }

  /** Dollar P&L from entry to the closing price, net of the entry commission. */
  function RealizedPnl(p: Position, closePrice: real): real {
    (closePrice - p.entryPrice) * MULTIPLIER * p.contracts as real - p.entryCommission
  }

  // ---------------------------------------------------------------- books of positions

  function OpenOnes(ps: seq<Position>): (r: seq<Position>)
    ensures forall p :: p in r <==> p in ps && p.IsOpen()
  {
    if ps == [] then [] else (if ps[0].IsOpen() then [ps[0]] else []) + OpenOnes(ps[1..])
  }

  /** `positions = [closed if p.id == id else p]`. */
  function Replaced(ps: seq<Position>, id: Id, next: Position): (r: seq<Position>)
    ensures |r| == |ps|
  {
    seq(|ps|, i requires 0 <= i < |ps| => if ps[i].id == id then next else ps[i])
  }

  /** Insertion-ordered dictionary assignment. */
  function Upsert(ps: seq<Position>, p: Position): seq<Position> {
    if exists i :: 0 <= i < |ps| && ps[i].id == p.id then Replaced(ps, p.id, p) else ps + [p]
  }

  ghost predicate UniqueIds(ps: seq<Position>) {
    forall i, j | 0 <= i < j < |ps| :: ps[i].id != ps[j].id
  }

  function OpenCount(ps: seq<Position>): nat { |OpenOnes(ps)| }

  function TotalOpenRisk(ps: seq<Position>): real {
    if ps == [] then 0.0 else (if ps[0].IsOpen() then ps[0].TotalMaxLoss() else 0.0) + TotalOpenRisk(ps[1..])
  }

  /** Risk of the open positions with a leg expiring at `expiry`. */
  function RiskForExpiration(ps: seq<Position>, expiry: Instant): real {
    if ps == [] then 0.0
    else (if ps[0].IsOpen() && (exists l | l in ps[0].strategy.legs :: l.expiry == expiry)
          then ps[0].TotalMaxLoss() else 0.0)
         + RiskForExpiration(ps[1..], expiry)
  }

  lemma {:induction false} RiskForExpirationOfAppend(ps: seq<Position>, p: Position, expiry: Instant)
    requires p.IsOpen() && exists l :: l in p.strategy.legs && l.expiry == expiry
    ensures RiskForExpiration(ps + [p], expiry) == RiskForExpiration(ps, expiry) + p.TotalMaxLoss()
  {
    hide Position.TotalMaxLoss;
    if ps == [] {
      assert ps + [p] == [p] && [p][1..] == [];
    } else {
      RiskForExpirationOfAppend(ps[1..], p, expiry);
      assert (ps + [p])[1..] == ps[1..] + [p];
    }
  }

  // ---------------------------------------------------------------- reconciliation

  function LegNet(legs: seq<Leg>, key: LegKey, contracts: int): int {
    if legs == [] then 0
    else (if legs[0].Key() == key then legs[0].quantity * contracts else 0) + LegNet(legs[1..], key, contracts)
  }

  /** Legs of an option add up, each for its quantity times the contracts. */
  lemma {:induction false} LegNetAddsUp(legs: seq<Leg>, leg: Leg, key: LegKey, contracts: int)
    ensures LegNet([], key, contracts) == 0
    ensures LegNet(legs + [leg], key, contracts)
         == LegNet(legs, key, contracts) + if leg.Key() == key then leg.quantity * contracts else 0
  {
    if legs == [] {
      assert (legs + [leg])[1..] == [];
    } else {
      assert (legs + [leg])[1..] == legs[1..] + [leg];
      LegNetAddsUp(legs[1..], leg, key, contracts);
    }
  }

  /** Net signed contracts held in one option over the open positions. */
  function NetQuantity(ps: seq<Position>, key: LegKey): int {
    if ps == [] then 0
    else (if ps[0].IsOpen() then LegNet(ps[0].strategy.legs, key, ps[0].contracts) else 0) + NetQuantity(ps[1..], key)
  }

  function CountOf(totals: map<LegKey, int>, key: LegKey): int { if key in totals then totals[key] else 0 }

  lemma {:induction false} NetOfPrefix(ps: seq<Position>, i: nat, key: LegKey)
    requires i < |ps|
    ensures NetQuantity(ps[..i + 1], key) ==
      NetQuantity(ps[..i], key) + if ps[i].IsOpen() then LegNet(ps[i].strategy.legs, key, ps[i].contracts) else 0
  {
    if i == 0 {
      assert ps[..1][1..] == [] && ps[..0] == [];
    } else {
      NetOfPrefix(ps[1..], i - 1, key);
      assert ps[..i + 1][1..] == ps[1..][..i] && ps[..i][1..] == ps[1..][..i - 1];
    }
  }

  lemma {:induction false} LegNetOfPrefix(legs: seq<Leg>, i: nat, key: LegKey, contracts: int)
    requires i < |legs|
    ensures LegNet(legs[..i + 1], key, contracts) ==
      LegNet(legs[..i], key, contracts) + if legs[i].Key() == key then legs[i].quantity * contracts else 0
  {
    if i == 0 {
      assert legs[..1][1..] == [] && legs[..0] == [];
    } else {
      LegNetOfPrefix(legs[1..], i - 1, key, contracts);
      assert legs[..i + 1][1..] == legs[1..][..i] && legs[..i][1..] == legs[1..][..i - 1];
    }
  }

  /** The counter of net leg quantities, with zero entries dropped. */
  method LegQuantities(ps: seq<Position>) returns (totals: map<LegKey, int>)
    ensures forall k :: CountOf(totals, k) == NetQuantity(ps, k)
    ensures forall k :: k in totals ==> totals[k] != 0
  {
    totals := map[];
    for i := 0 to |ps|
      invariant forall k :: CountOf(totals, k) == NetQuantity(ps[..i], k)
    {
      var p := ps[i];
      if p.IsOpen() {
        ghost var before := totals;
        for j := 0 to |p.strategy.legs|
          invariant forall k :: CountOf(totals, k) == CountOf(before, k) + LegNet(p.strategy.legs[..j], k, p.contracts)
        {
          var leg := p.strategy.legs[j];
          forall k ensures LegNet(p.strategy.legs[..j + 1], k, p.contracts) ==
            LegNet(p.strategy.legs[..j], k, p.contracts) + if leg.Key() == k then leg.quantity * p.contracts else 0
          {
            LegNetOfPrefix(p.strategy.legs, j, k, p.contracts);
          }
          totals := totals[leg.Key() := CountOf(totals, leg.Key()) + leg.quantity * p.contracts];
        }
        assert p.strategy.legs[..|p.strategy.legs|] == p.strategy.legs;
      }
      forall k ensures NetQuantity(ps[..i + 1], k) ==
        NetQuantity(ps[..i], k) + if p.IsOpen() then LegNet(p.strategy.legs, k, p.contracts) else 0
      {
        NetOfPrefix(ps, i, k);
      }
    }
    assert ps[..|ps|] == ps;
    totals := map k | k in totals && totals[k] != 0 :: totals[k];
  }

  datatype Discrepancy = InternalOnly(key: LegKey, mine: int) | BrokerOnly(key: LegKey, yours: int)
    | QuantityMismatch(key: LegKey, mine: int, yours: int)

  /** Leg-by-leg comparison of the two books. */
  method Reconcile(internal: seq<Position>, external: seq<Position>) returns (discrepancies: seq<Discrepancy>)
    ensures forall d :: d in discrepancies <==> IsDiscrepancy(d, internal, external)
    ensures forall i, j | 0 <= i < j < |discrepancies| :: discrepancies[i].key != discrepancies[j].key
    ensures discrepancies == [] <==> BooksAgree(internal, external)
  {
    var ours := LegQuantities(internal);
    var theirs := LegQuantities(external);
    var keys := ours.Keys + theirs.Keys;
    discrepancies := [];
    ghost var done: set<LegKey> := {};
    while keys != {}
      invariant keys + done == ours.Keys + theirs.Keys && keys !! done
      invariant forall d :: d in discrepancies <==> d.key in done && IsDiscrepancy(d, internal, external)
      invariant forall i, j | 0 <= i < j < |discrepancies| :: discrepancies[i].key != discrepancies[j].key
    {
      var key :| key in keys;
      keys := keys - {key};
      done := done + {key};
      var mine, yours := CountOf(ours, key), CountOf(theirs, key);
      assert mine == NetQuantity(internal, key) && yours == NetQuantity(external, key);
      if mine != yours {
        if yours == 0 {
          discrepancies := discrepancies + [InternalOnly(key, mine)];
        } else if mine == 0 {
          discrepancies := discrepancies + [BrokerOnly(key, yours)];
        } else {
          discrepancies := discrepancies + [QuantityMismatch(key, mine, yours)];
        }
      }
    }
    forall d ensures d in discrepancies <==> IsDiscrepancy(d, internal, external) {
      assert CountOf(ours, d.key) == NetQuantity(internal, d.key);
      assert CountOf(theirs, d.key) == NetQuantity(external, d.key);
    }
    NoDiscrepancyMeansAgreement(internal, external, discrepancies);
  }

  ghost predicate IsDiscrepancy(d: Discrepancy, internal: seq<Position>, external: seq<Position>) {
    var mine, yours := NetQuantity(internal, d.key), NetQuantity(external, d.key);
    mine != yours &&
    match d
    case InternalOnly(_, m) => yours == 0 && m == mine
    case BrokerOnly(_, y) => yours != 0 && mine == 0 && y == yours
    case QuantityMismatch(_, m, y) => yours != 0 && mine != 0 && m == mine && y == yours
  }

  /** Both books net to the same signed quantity in every option. */
  ghost predicate BooksAgree(internal: seq<Position>, external: seq<Position>) {
    forall k: LegKey :: NetQuantity(internal, k) == NetQuantity(external, k)
  }

  lemma NoDiscrepancyMeansAgreement(internal: seq<Position>, external: seq<Position>, ds: seq<Discrepancy>)
    requires forall d :: d in ds <==> IsDiscrepancy(d, internal, external)
    ensures ds == [] <==> BooksAgree(internal, external)
  {
    if ds == [] {
      forall k: LegKey ensures NetQuantity(internal, k) == NetQuantity(external, k) {
        var mine, yours := NetQuantity(internal, k), NetQuantity(external, k);
        assert InternalOnly(k, mine) !in ds && BrokerOnly(k, yours) !in ds && QuantityMismatch(k, mine, yours) !in ds;
      }
    } else {
      assert IsDiscrepancy(ds[0], internal, external);
    }
  }

  // ---------------------------------------------------------------- matched books

  /** The two books list the same positions in the same order and agree on which are open; only
      the marks of open positions may differ. */
  ghost predicate Matched(internal: seq<Position>, external: seq<Position>) {
    && |internal| == |external|
    && (forall i | 0 <= i < |internal| ::
          && internal[i].SameTerms(external[i]) && internal[i].IsOpen() == external[i].IsOpen()
          && (internal[i].IsOpen() || internal[i] == external[i]))
  }

  lemma {:induction false} MatchedBooksNetAlike(internal: seq<Position>, external: seq<Position>, key: LegKey)
    requires Matched(internal, external)
    ensures NetQuantity(internal, key) == NetQuantity(external, key)
  {
    if internal != [] {
      MatchedBooksNetAlike(internal[1..], external[1..], key);
    }
  }

  lemma MatchedBooksAgree(internal: seq<Position>, external: seq<Position>)
    requires Matched(internal, external)
    ensures BooksAgree(internal, external)
  {
    forall k: LegKey ensures NetQuantity(internal, k) == NetQuantity(external, k) {
      MatchedBooksNetAlike(internal, external, k);
    }
  }

  lemma {:induction false} NetIgnoresClosed(ps: seq<Position>, key: LegKey)
    ensures NetQuantity(OpenOnes(ps), key) == NetQuantity(ps, key)
  {
    if ps != [] {
      NetIgnoresClosed(ps[1..], key);
      if ps[0].IsOpen() {
        assert OpenOnes(ps)[1..] == OpenOnes(ps[1..]);
      } else {
        assert OpenOnes(ps) == OpenOnes(ps[1..]);
      }
    }
  }
}
