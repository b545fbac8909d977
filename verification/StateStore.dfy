/** What survives a restart: capture, restore, and runs that span several processes. */
module StateStore {
  import opened Options
  import opened Payoff
  import opened Positions
  import opened Broker
  import opened Risk
  import opened Trading
  import opened Totals
  import opened Invariants
  import opened Runs
  import opened Pipeline
  import opened Vectors
  import HiddenStates

  // ---------------------------------------------------------------- stored values

  /** A stored field: absent, unreadable as its type, or a value. */
  datatype Stored<+T> = Missing | Garbled | Is(value: T)

  function Required<T>(s: Stored<T>): Option<T> { if s.Is? then Some(s.value) else None }

  function Defaulted<T>(s: Stored<T>, default: T): Option<T> {
    if s.Missing? then Some(default) else Required(s)
  }

  /** An optional field: null and absence both read as none. */
  function Nullable<T>(s: Stored<Option<T>>): Option<Option<T>> { Defaulted(s, None) }

  datatype LegPayload = LegPayload(expiry: Stored<Instant>, strike: Stored<real>, right: Stored<Right>,
      quantity: Stored<int>, entryPrice: Stored<real>, entryIv: Stored<real>)

  datatype PlanPayload = PlanPayload(profitTargetFraction: Stored<real>, stopLossFraction: Stored<real>,
      maxHoldingMinutes: Stored<real>, invalidationStates: Stored<seq<string>>,
      closeBeforeExpiryMinutes: Stored<real>, minForecastProbability: Stored<real>)

  datatype PositionPayload = PositionPayload(id: Stored<Id>, openedAt: Stored<Instant>, family: Stored<Family>,
    legs: Stored<seq<LegPayload>>, contracts: Stored<int>, entryPrice: Stored<real>, maxLossPerContract: Stored<real>,
    maxProfitPerContract: Stored<Bound>, exitPlan: Stored<PlanPayload>, entryCommission: Stored<real>,
    currentPrice: Stored<real>, markedAt: Stored<Option<Instant>>, realizedPnl: Stored<real>,
    exitReason: Stored<Option<ExitReason>>, closedAt: Stored<Option<Instant>>)

  // ---------------------------------------------------------------- encoding

  function EncodeLeg(l: Leg): LegPayload {
    LegPayload(Is(l.expiry), Is(l.strike), Is(l.right), Is(l.quantity), Is(l.entryPrice), Is(l.entryIv))
  }

  function EncodeLegs(legs: seq<Leg>): (r: seq<LegPayload>)
    ensures |r| == |legs|
  {
    seq(|legs|, i requires 0 <= i < |legs| => EncodeLeg(legs[i]))
  }

  /** The credit multiple of the stop is not stored. */
  function EncodePlan(p: ExitPlan): PlanPayload {
    PlanPayload(Is(p.profitTargetFraction), Is(p.stopLossFraction), Is(p.maxHoldingMinutes), Is(p.invalidationStates),
                Is(p.closeBeforeExpiryMinutes), Is(p.minForecastProbability))
  }

  function EncodePosition(p: Position): PositionPayload {
    PositionPayload(Is(p.id), Is(p.openedAt), Is(p.strategy.family), Is(EncodeLegs(p.strategy.legs)), Is(p.contracts),
      Is(p.entryPrice), Is(p.maxLossPerContract), Is(p.maxProfitPerContract), Is(EncodePlan(p.exitPlan)),
      Is(p.entryCommission), Is(p.currentPrice), Is(p.markedAt), Is(p.realizedPnl), Is(p.exitReason), Is(p.closedAt))
  }

  // ---------------------------------------------------------------- decoding

  function DecodeLeg(p: LegPayload): Option<Leg> {
    var expiry, strike := Required(p.expiry), Required(p.strike);
    var right, quantity := Required(p.right), Required(p.quantity);
    var price, iv := Defaulted(p.entryPrice, 0.0), Defaulted(p.entryIv, 0.0);
    if expiry.None? || strike.None? || right.None? || quantity.None? || price.None? || iv.None? then None
    else
      var leg := LegRecord(expiry.value, strike.value, right.value, quantity.value, price.value, iv.value);
      if leg.IsValid() then Some(leg) else None
  }

  function DecodeLegs(ps: seq<LegPayload>): Option<seq<Leg>> {
    if ps == [] then Some([])
    else
      var first, rest := DecodeLeg(ps[0]), DecodeLegs(ps[1..]);
      if first.None? || rest.None? then None else Some([first.value] + rest.value)
  }

  function DecodePlan(p: PlanPayload): Option<ExitPlan> {
    var target, stop := Required(p.profitTargetFraction), Required(p.stopLossFraction);
    var holding := Required(p.maxHoldingMinutes);
    var states, close := Defaulted(p.invalidationStates, []), Defaulted(p.closeBeforeExpiryMinutes, 30.0);
    var probability := Defaulted(p.minForecastProbability, 0.0);
    if target.None? || stop.None? || holding.None? || states.None? || close.None? || probability.None? then None
    else
      var plan := PlanRecord(target.value, stop.value, holding.value, states.value, close.value, probability.value,
                             None);
      if plan.IsValid() then Some(plan) else None
  }

  function DecodeStrategy(p: PositionPayload): Option<Strategy> {
    if !p.family.Is? || !p.legs.Is? then None
    else
      var legs := DecodeLegs(p.legs.value);
      if legs.None? || legs.value == [] then None else Some(StructureRecord(p.family.value, legs.value))
  }

  /** A position rebuilt from its record; none when any part is missing, unreadable or refused by a constructor. */
  function DecodePosition(p: PositionPayload): Option<Position> {
    var strategy := DecodeStrategy(p);
    var plan := if p.exitPlan.Is? then DecodePlan(p.exitPlan.value) else None;
    var commission, current := Defaulted(p.entryCommission, 0.0), Defaulted(p.currentPrice, 0.0);
    var realized := Defaulted(p.realizedPnl, 0.0);
    var markedAt, reason, closedAt := Nullable(p.markedAt), Nullable(p.exitReason), Nullable(p.closedAt);
    if strategy.None? || plan.None? || commission.None? || current.None? || realized.None? || markedAt.None?
       || reason.None? || closedAt.None? || !p.id.Is? || !p.openedAt.Is? || !p.contracts.Is? || !p.entryPrice.Is?
       || !p.maxLossPerContract.Is? || !p.maxProfitPerContract.Is?
    then None
    else Some(Position(p.id.value, p.openedAt.value, strategy.value, p.contracts.value, p.entryPrice.value,
                       p.maxLossPerContract.value, p.maxProfitPerContract.value, plan.value, commission.value,
                       current.value, markedAt.value, realized.value, reason.value, closedAt.value))
  }

  // ---------------------------------------------------------------- the round trip of one position

  function Forgotten(p: Position): Position { p.(exitPlan := p.exitPlan.(stopLossCreditMultiple := None)) }

  lemma {:induction false} LegsRoundTrip(legs: seq<Leg>)
    ensures DecodeLegs(EncodeLegs(legs)) == Some(legs)
  {
    if legs != [] {
      LegsRoundTrip(legs[1..]);
      assert EncodeLegs(legs)[1..] == EncodeLegs(legs[1..]);
      assert DecodeLeg(EncodeLeg(legs[0])) == Some(legs[0]);
      assert legs == [legs[0]] + legs[1..];
    }
  }

  /** Saving and loading a position keeps everything but the credit multiple of its stop, so the
      round trip is exact exactly when the plan has none. */
  lemma PositionRoundTrip(p: Position)
    ensures DecodePosition(EncodePosition(p)) == Some(Forgotten(p))
    ensures DecodePosition(EncodePosition(p)) == Some(p) <==> p.exitPlan.stopLossCreditMultiple.None?
  {
    LegsRoundTrip(p.strategy.legs);
  }

  // ---------------------------------------------------------------- and back again

  function OrDefault<T>(s: Stored<T>, default: T): Stored<T> { if s.Missing? then Is(default) else s }

  function FullLeg(p: LegPayload): LegPayload {
    p.(entryPrice := OrDefault(p.entryPrice, 0.0), entryIv := OrDefault(p.entryIv, 0.0))
  }

  function FullLegs(ps: seq<LegPayload>): (r: seq<LegPayload>)
    ensures |r| == |ps|
  {
    seq(|ps|, i requires 0 <= i < |ps| => FullLeg(ps[i]))
  }

  function FullPlan(p: PlanPayload): PlanPayload {
    p.(invalidationStates := OrDefault(p.invalidationStates, []),
       closeBeforeExpiryMinutes := OrDefault(p.closeBeforeExpiryMinutes, 30.0),
       minForecastProbability := OrDefault(p.minForecastProbability, 0.0))
  }

  /** The record with every optional field that is absent written out. */
  function FullRecord(p: PositionPayload): PositionPayload {
    p.(legs := if p.legs.Is? then Is(FullLegs(p.legs.value)) else p.legs,
       exitPlan := if p.exitPlan.Is? then Is(FullPlan(p.exitPlan.value)) else p.exitPlan,
       entryCommission := OrDefault(p.entryCommission, 0.0), currentPrice := OrDefault(p.currentPrice, 0.0),
       realizedPnl := OrDefault(p.realizedPnl, 0.0), markedAt := OrDefault(p.markedAt, None),
       exitReason := OrDefault(p.exitReason, None), closedAt := OrDefault(p.closedAt, None))
  }

  lemma {:induction false} FullLegsDecode(ps: seq<LegPayload>)
    ensures DecodeLegs(FullLegs(ps)) == DecodeLegs(ps)
  {
    if ps != [] {
      FullLegsDecode(ps[1..]);
      assert FullLegs(ps)[1..] == FullLegs(ps[1..]);
      assert DecodeLeg(FullLeg(ps[0])) == DecodeLeg(ps[0]);
    }
  }

  /** Absent optional fields read as their defaults: writing them out changes nothing of what a record loads as. */
  lemma AbsentReadsAsDefault(p: PositionPayload)
    ensures DecodePosition(p) == DecodePosition(FullRecord(p))
  {
    if p.legs.Is? { FullLegsDecode(p.legs.value); }
    hide DecodeLegs, FullLegs;
  }

  lemma {:induction false} LegsReencode(ps: seq<LegPayload>)
    requires DecodeLegs(ps).Some?
    ensures EncodeLegs(DecodeLegs(ps).value) == FullLegs(ps)
  {
    if ps != [] {
      LegsReencode(ps[1..]);
      var legs := DecodeLegs(ps).value;
      assert EncodeLeg(legs[0]) == FullLeg(ps[0]);
      assert EncodeLegs(legs) == [EncodeLeg(legs[0])] + EncodeLegs(legs[1..]);
      assert FullLegs(ps) == [FullLeg(ps[0])] + FullLegs(ps[1..]);
    }
  }

  /** Any record that loads is saved again as it was, with the optional fields it lacked written out: loading
      invents nothing and drops nothing. */
  lemma LoadedIsSavedAgain(p: PositionPayload)
    requires DecodePosition(p).Some?
    ensures EncodePosition(DecodePosition(p).value) == FullRecord(p)
  {
    LegsReencode(p.legs.value);
    hide DecodeLegs, EncodeLegs, FullLegs, EncodeLeg, DecodeLeg;
  }

  lemma SameProduct(a: real, b: real, n: int)
    requires n >= 1
    ensures a * n as real == b * n as real <==> a == b
  {
    if a * n as real == b * n as real {
      assert (a - b) * n as real == 0.0;
    }
  }

  /** A restart moves a position's stop unless it was opened for a debit, its plan has no credit
      multiple, or the multiple and the fraction of maximum loss happen to name the same dollars. */
  lemma StopSurvivesExactlyWhen(p: Position)
    requires p.contracts >= 1
    ensures StopThreshold(Forgotten(p)) == StopThreshold(p) <==>
      var plan := p.exitPlan;
      || plan.stopLossCreditMultiple.None?
      || p.entryPrice >= 0.0
      || Min(plan.stopLossCreditMultiple.value * (-p.entryPrice * MULTIPLIER), p.maxLossPerContract)
        == plan.stopLossFraction * p.maxLossPerContract
  {
    var credit := Max(0.0, -p.entryPrice) * MULTIPLIER;
    SameProduct(Forgotten(p).exitPlan.StopLossDollars(p.maxLossPerContract, credit),
                p.exitPlan.StopLossDollars(p.maxLossPerContract, credit), p.contracts);
  }

  /** An instance: one contract sold for a credit of 1.00 that may lose 400, stopped at 1.5 times the
      credit or half of the loss. Its stop is 150 before a restart and 200 after it. */
  lemma CreditStopMoves(p: Position)
    requires p.contracts == 1 && p.entryPrice == -1.0 && p.maxLossPerContract == 400.0
    requires p.exitPlan.stopLossFraction == 0.5 && p.exitPlan.stopLossCreditMultiple == Some(1.5)
    ensures StopThreshold(p) == 150.0 && StopThreshold(Forgotten(p)) == 200.0
  {
  }

  // ---------------------------------------------------------------- the payload

  datatype SwitchKey = Known(reason: SwitchReason) | Unknown(text: string)

  datatype Payload = Payload(positions: seq<PositionPayload>, switches: seq<(SwitchKey, string)>,
      session: SessionRecord, belief: seq<real>, equity: Option<real>)

  function EncodeAll(ps: seq<Position>): (r: seq<PositionPayload>)
    ensures |r| == |ps|
  {
    seq(|ps|, i requires 0 <= i < |ps| => EncodePosition(ps[i]))
  }

  /** The entries list the active switches, each once. */
  ghost predicate Lists(entries: seq<(SwitchKey, string)>, switches: Switches) {
    && (forall i, j | 0 <= i < j < |entries| :: entries[i].0 != entries[j].0)
    && (forall i | 0 <= i < |entries| :: entries[i].0.Known? && entries[i].0.reason in switches
                                         && switches[entries[i].0.reason] == entries[i].1)
    && (forall r | r in switches :: (Known(r), switches[r]) in entries)
  }

  ghost predicate IsCapture(p: Payload, d: Desk) {
    && p.positions == EncodeAll(OpenOnes(d.portfolio))
    && Lists(p.switches, d.switches)
    && p.session == d.session
    && p.equity == Some(d.book.equity)
  }

  function RestoreSwitches(s: Switches, entries: seq<(SwitchKey, string)>): Switches {
    if entries == [] then s
    else
      var (key, detail) := entries[|entries| - 1];
      Tripped(RestoreSwitches(s, entries[..|entries| - 1]), if key.Known? then key.reason else Manual, detail)
  }

  function Rebuilt(ps: seq<PositionPayload>): (r: seq<Position>)
    ensures |r| <= |ps|
    ensures |r| == |ps| <==> forall p | p in ps :: DecodePosition(p).Some?
  {
    if ps == [] then []
    else
      var p := DecodePosition(ps[|ps| - 1]);
      var front := ps[..|ps| - 1];
      assert forall q :: q in ps <==> q in front || q == ps[|ps| - 1];
      Rebuilt(front) + if p.Some? then [p.value] else []
  }

  function RegisterAll(book: seq<Position>, ps: seq<Position>): seq<Position> {
    if ps == [] then book else Upsert(RegisterAll(book, ps[..|ps| - 1]), ps[|ps| - 1])
  }

  /** The desk after restoring a payload into it. */
  function RestoredDesk(d: Desk, p: Payload): Desk {
    var rebuilt := Rebuilt(p.positions);
    var switches := RestoreSwitches(d.switches, p.switches);
    d.(switches := TripIf(switches, |rebuilt| != |p.positions|, BrokerState, "could not rebuild every open position"),
       session := p.session,
       portfolio := d.portfolio + rebuilt,
       book := d.book.(positions := RegisterAll(d.book.positions, rebuilt),
                       equity := if p.equity.Some? then p.equity.value else d.book.equity))
  }

  function RestoredBelief(current: seq<real>, stored: seq<real>): seq<real> {
    if stored == [] || Sum(stored) <= 0.0 then current
    else Scaled(stored, Sum(stored))
  }

  /** A stored belief with positive mass comes back as the distribution it is proportional to. Any other
      leaves the current belief, so a degenerate one comes back uniform exactly when that was uniform. */
  lemma RestoredBeliefIs(current: seq<real>, stored: seq<real>)
    ensures var restored := RestoredBelief(current, stored);
      && (stored != [] && Sum(stored) > 0.0 ==>
            && |restored| == |stored| && Sum(restored) == 1.0
            && (forall i | 0 <= i < |stored| :: restored[i] * Sum(stored) == stored[i]))
      && (stored == [] || Sum(stored) <= 0.0 ==>
            (restored == HiddenStates.Uniform() <==> current == HiddenStates.Uniform()))
  {
    hide Sum, HiddenStates.Uniform;
    if stored != [] && Sum(stored) > 0.0 {
      SumOfScaled(stored, Sum(stored));
      SelfRatio(Sum(stored));
      forall i | 0 <= i < |stored| ensures Scaled(stored, Sum(stored))[i] * Sum(stored) == stored[i] {
        DividedBack(stored[i], Sum(stored));
      }
    }
  }

  lemma DividedBack(a: real, b: real)
    requires b > 0.0
    ensures (a / b) * b == a
  {
  }

  /** An instance: a belief certain of one state is kept when the stored one has no mass. */
  lemma DegenerateBeliefStays(current: seq<real>)
    requires |current| == HiddenStates.STATES && current[0] == 1.0
    ensures RestoredBelief(current, [0.0]) == current && current != HiddenStates.Uniform()
  {
    assert [0.0][1..] == [];
    assert Sum([0.0]) == 0.0;
    assert HiddenStates.Uniform()[0] < 1.0;
  }

  /** A stored distribution comes back unchanged. */
  lemma BeliefSurvives(current: seq<real>, stored: seq<real>)
    requires Sum(stored) == 1.0 && stored != []
    ensures RestoredBelief(current, stored) == stored
  {
  }

  /** Whatever the payload, restoring keeps every switch already active, trips every stored one it
      recognises, turns an unrecognised one into MANUAL, and trips BROKER_STATE exactly when it was
      active or stored or some stored position could not be rebuilt. */
  lemma RestoreFailsClosed(d: Desk, p: Payload)
    ensures var after := RestoredDesk(d, p).switches;
      && Latched(d.switches, after)
      && (forall e | e in p.switches :: (if e.0.Known? then e.0.reason else Manual) in after)
      && (BrokerState in after <==>
            || BrokerState in d.switches
            || (exists e :: e in p.switches && e.0 == Known(BrokerState))
            || (exists q :: q in p.positions && DecodePosition(q).None?))
  {
    hide DecodePosition;
    RestoredSwitchesAre(d.switches, p.switches);
  }

  lemma {:induction false} RestoredSwitchesAre(s: Switches, entries: seq<(SwitchKey, string)>)
    ensures Latched(s, RestoreSwitches(s, entries))
    ensures forall r :: r in RestoreSwitches(s, entries) <==>
      r in s || exists e :: e in entries && r == (if e.0.Known? then e.0.reason else Manual)
  {
    if entries != [] {
      var front := entries[..|entries| - 1];
      RestoredSwitchesAre(s, front);
      assert forall e :: e in entries <==> e in front || e == entries[|entries| - 1];
    }
  }

  // ---------------------------------------------------------------- a clean restart

  lemma {:induction false} ListedSwitchesComeBack(entries: seq<(SwitchKey, string)>, switches: Switches)
    requires Lists(entries, switches)
    ensures RestoreSwitches(map[], entries) == switches
  {
    var after := RestoreSwitches(map[], entries);
    RestoredSwitchesAre(map[], entries);
    DetailsComeBack(entries, switches);
    forall r ensures r in after <==> r in switches {
      if r in switches {
        assert (Known(r), switches[r]) in entries;
      }
    }
  }

  lemma {:induction false} DetailsComeBack(entries: seq<(SwitchKey, string)>, switches: Switches)
    requires forall i | 0 <= i < |entries| :: entries[i].0.Known? && entries[i].0.reason in switches
                                              && switches[entries[i].0.reason] == entries[i].1
    ensures forall r | r in RestoreSwitches(map[], entries) ::
      r in switches && RestoreSwitches(map[], entries)[r] == switches[r]
  {
    if entries != [] {
      DetailsComeBack(entries[..|entries| - 1], switches);
    }
  }

  function ForgottenAll(ps: seq<Position>): (r: seq<Position>)
    ensures |r| == |ps|
  {
    seq(|ps|, i requires 0 <= i < |ps| => Forgotten(ps[i]))
  }

  lemma {:induction false} CaptureRebuilds(ps: seq<Position>)
    ensures Rebuilt(EncodeAll(ps)) == ForgottenAll(ps)
  {
    hide DecodePosition, EncodePosition;
    if ps != [] {
      var n := |ps| - 1;
      CaptureRebuilds(ps[..n]);
      assert EncodeAll(ps)[..n] == EncodeAll(ps[..n]);
      PositionRoundTrip(ps[n]);
      assert ForgottenAll(ps) == ForgottenAll(ps[..n]) + [Forgotten(ps[n])];
    }
  }

  lemma {:induction false} RegisterDistinct(ps: seq<Position>)
    requires UniqueIds(ps)
    ensures RegisterAll([], ps) == ps
  {
    if ps != [] {
      var front, last := ps[..|ps| - 1], ps[|ps| - 1];
      RegisterDistinct(front);
      assert Upsert(front, last) == front + [last];
      hide Upsert;
      assert ps == front + [last];
    }
  }

  /** The desk a new process has after restoring what was captured from `d`. */
  function Reborn(d: Desk, nextId: Id, cfg: DeskConfig): Desk {
    var kept := ForgottenAll(OpenOnes(d.portfolio));
    Desk(Book(d.book.equity, map[], [], kept, true), kept, d.session, d.switches, nextId, [])
  }

  /** A restart recovers the open positions, the equity, the session counters and every switch exactly;
      only closed history and the stops' credit multiples are gone. */
  lemma RestartRecovers(d: Desk, p: Payload, nextId: Id, cfg: DeskConfig)
    requires IsCapture(p, d) && UniqueIds(d.portfolio)
    ensures RestoredDesk(NewDesk(cfg).(nextId := nextId), p) == Reborn(d, nextId, cfg)
  {
    hide DecodePosition, EncodePosition, Rebuilt;
    var open := OpenOnes(d.portfolio);
    CaptureRebuilds(open);
    ListedSwitchesComeBack(p.switches, d.switches);
    OpenOnesArePending(d.portfolio);
    RegisterDistinct(ForgottenAll(open));
    assert [] + ForgottenAll(open) == ForgottenAll(open);
  }

  // ---------------------------------------------------------------- the store

  datatype Row = Row(schema: string, payload: Payload)

  const SCHEMA_VERSION := "1.0.0"

  datatype Report = NothingStored | SchemaMismatch | Recovered(rebuilt: nat)

  class RuntimeStateStore {
    var row: Option<Row>

    constructor ()
      ensures row == None
    {
      row := None;
    }

    /** The payload is what restoring needs of the pipeline, and nothing of the pipeline changes. */
    method Save(pipeline: DecisionPipeline)
      modifies this
      ensures row.Some? && row.value.schema == SCHEMA_VERSION && row.value.payload.belief == pipeline.hiddenBelief
      ensures IsCapture(row.value.payload, pipeline.View())
    {
      var switches := ListSwitches(pipeline.risk.killSwitch.active);
      var positions := EncodeAll(OpenOnes(pipeline.portfolio.positions));
      row := Some(Row(SCHEMA_VERSION, Payload(positions, switches, pipeline.risk.session.View(), pipeline.hiddenBelief,
                                              Some(pipeline.broker.equity))));
    }

    method Restore(pipeline: DecisionPipeline) returns (report: Report)
      modifies pipeline`hiddenBelief, pipeline.broker, pipeline.portfolio, pipeline.risk.session,
        pipeline.risk.killSwitch
      ensures row.None? ==> report == NothingStored
      ensures row.Some? && row.value.schema != SCHEMA_VERSION ==> report == SchemaMismatch
      ensures !report.Recovered? ==>
        pipeline.View() == old(pipeline.View()) && pipeline.hiddenBelief == old(pipeline.hiddenBelief)
      ensures report.Recovered? ==>
        && row.Some? && row.value.schema == SCHEMA_VERSION
        && pipeline.View() == RestoredDesk(old(pipeline.View()), row.value.payload)
        && pipeline.hiddenBelief == RestoredBelief(old(pipeline.hiddenBelief), row.value.payload.belief)
        && report.rebuilt == |Rebuilt(row.value.payload.positions)|
      ensures report.Recovered? <==> row.Some? && row.value.schema == SCHEMA_VERSION
    {
      hide DecodePosition, Upsert;
      if row.None? {
        return NothingStored;
      }
      if row.value.schema != SCHEMA_VERSION {
        return SchemaMismatch;
      }
      var payload := row.value.payload;
      RestoreAllSwitches(pipeline.risk.killSwitch, payload.switches);
      RestoreSession(pipeline.risk.session, payload.session);
      var count := RestorePositions(pipeline, payload.positions);
      pipeline.hiddenBelief := RestoredBelief(pipeline.hiddenBelief, payload.belief);
      if payload.equity.Some? {
        pipeline.broker.equity := payload.equity.value;
      }
      if count != |payload.positions| {
        pipeline.risk.killSwitch.Trip(BrokerState, "could not rebuild every open position");
      }
      report := Recovered(count);
    }

    method RestoreAllSwitches(killSwitch: KillSwitch, entries: seq<(SwitchKey, string)>)
      modifies killSwitch
      ensures killSwitch.active == RestoreSwitches(old(killSwitch.active), entries)
    {
      for i := 0 to |entries|
        invariant killSwitch.active == RestoreSwitches(old(killSwitch.active), entries[..i])
      {
        var (key, detail) := entries[i];
        assert entries[..i + 1][..i] == entries[..i];
        killSwitch.Trip(if key.Known? then key.reason else Manual, detail);
      }
      assert entries[..|entries|] == entries;
    }

    method RestoreSession(session: SessionState, stored: SessionRecord)
      modifies session
      ensures session.View() == stored
    {
      session.tradingDay := stored.tradingDay;
      session.realizedPnl := stored.realizedPnl;
      session.peakEquity := stored.peakEquity;
      session.tradesToday := stored.tradesToday;
      session.consecutiveLosses := stored.consecutiveLosses;
      session.slippageSamples := stored.slippage;
    }

    method RestorePositions(pipeline: DecisionPipeline, records: seq<PositionPayload>) returns (count: nat)
      modifies pipeline.broker, pipeline.portfolio
      ensures pipeline.portfolio.positions == old(pipeline.portfolio.positions) + Rebuilt(records)
      ensures pipeline.broker.View()
           == old(pipeline.broker.View()).(positions := RegisterAll(old(pipeline.broker.positions), Rebuilt(records)))
      ensures count == |Rebuilt(records)|
    {
      hide DecodePosition, Upsert;
      count := 0;
      ghost var held, before := pipeline.portfolio.positions, pipeline.broker.View();
      for i := 0 to |records|
        invariant pipeline.portfolio.positions == held + Rebuilt(records[..i]) && count == |Rebuilt(records[..i])|
        invariant pipeline.broker.View() == before.(positions := RegisterAll(before.positions, Rebuilt(records[..i])))
      {
        var position := DecodePosition(records[i]);
        assert records[..i + 1][..i] == records[..i];
        ghost var rebuilt := Rebuilt(records[..i]);
        if position.Some? {
          assert (rebuilt + [position.value])[..|rebuilt|] == rebuilt;
          pipeline.portfolio.Add(position.value);
          pipeline.broker.RegisterPosition(position.value);
          count := count + 1;
        } else {
          assert rebuilt + [] == rebuilt;
        }
      }
      assert records[..|records|] == records;
    }
  }

  method ListSwitches(switches: Switches) returns (entries: seq<(SwitchKey, string)>)
    ensures Lists(entries, switches)
  {
    entries := [];
    var todo := switches.Keys;
    while todo != {}
      invariant todo <= switches.Keys
      invariant forall i, j | 0 <= i < j < |entries| :: entries[i].0 != entries[j].0
      invariant forall i | 0 <= i < |entries| :: entries[i].0.Known? && entries[i].0.reason in switches
                                                 && entries[i].0.reason !in todo
                                                 && switches[entries[i].0.reason] == entries[i].1
      invariant forall r | r in switches && r !in todo :: (Known(r), switches[r]) in entries
    {
      var r :| r in todo;
      todo := todo - {r};
      entries := entries + [(Known(r), switches[r])];
    }
  }

  // ---------------------------------------------------------------- lives: runs across restarts

  /** A history of events and restarts. A restart loads what was saved at some earlier moment,
      possibly not the last one. */
  datatype Life = Born | After(before: Life, event: Event) | Restarted(crashed: Life, saved: Life, payload: Payload)

  ghost function DeskOf(l: Life, cfg: DeskConfig): Desk {
    match l
    case Born => NewDesk(cfg)
    case After(before, e) => Next(DeskOf(before, cfg), e, cfg)
    case Restarted(crashed, saved, payload) =>
      RestoredDesk(NewDesk(cfg).(nextId := DeskOf(crashed, cfg).nextId), payload)
  }

  /** `l` is `from` or continues it within or across processes. */
  ghost predicate Continues(from: Life, l: Life) {
    l == from || (match l
                  case Born => false
                  case After(before, _) => Continues(from, before)
                  case Restarted(crashed, _, _) => Continues(from, crashed))
  }

  /** Every restart loads a capture of an earlier moment of the same life. */
  ghost predicate Honest(l: Life, cfg: DeskConfig) {
    match l
    case Born => true
    case After(before, _) => Honest(before, cfg)
    case Restarted(crashed, saved, payload) =>
      Honest(crashed, cfg) && Honest(saved, cfg) && Continues(saved, crashed) && IsCapture(payload, DeskOf(saved, cfg))
  }

  lemma {:induction false} OpenOnesKeepTotals(f: Position -> real, ps: seq<Position>)
    requires forall p | p in ps && !p.IsOpen() :: f(p) == 0.0
    requires forall p | p in ps :: f(Forgotten(p)) == f(p)
    ensures Total(f, ForgottenAll(OpenOnes(ps))) == Total(f, ps)
  {
    if ps != [] {
      OpenOnesKeepTotals(f, ps[1..]);
      var rest := OpenOnes(ps[1..]);
      if ps[0].IsOpen() {
        assert OpenOnes(ps) == [ps[0]] + rest;
        assert ForgottenAll(OpenOnes(ps))[1..] == ForgottenAll(rest);
      } else {
        assert OpenOnes(ps) == rest;
      }
    }
  }

  lemma {:induction false} OpenOnesKeepWitness(ps: seq<Position>, i: nat)
    requires i < |ps| && ps[i].IsOpen()
    ensures exists j :: 0 <= j < |OpenOnes(ps)| && OpenOnes(ps)[j] == ps[i]
  {
    assert ps[i] in OpenOnes(ps);
  }

  lemma RestartKeepsWithin(f: Position -> real, ps: seq<Position>, cap: real)
    requires forall p | p in ps && !p.IsOpen() :: f(p) == 0.0
    requires forall p | p in ps :: f(Forgotten(p)) == f(p)
    requires WithinOneFee(f, ps, cap)
    ensures WithinOneFee(f, ForgottenAll(OpenOnes(ps)), cap)
  {
    hide Total, OpenOnes;
    var kept := ForgottenAll(OpenOnes(ps));
    OpenOnesKeepTotals(f, ps);
    if Total(f, ps) > cap {
      var i :| 0 <= i < |ps| && Excuses(f, ps, i, cap);
      OpenOnesKeepWitness(ps, i);
      var j :| 0 <= j < |OpenOnes(ps)| && OpenOnes(ps)[j] == ps[i];
      assert Excuses(f, kept, j, cap);
    }
  }

  lemma RestartKeepsExposure(ps: seq<Position>, cfg: RiskConfig)
    requires Exposure(ps, cfg)
    ensures Exposure(ForgottenAll(OpenOnes(ps)), cfg)
  {
    hide Total, OpenOnes, WithinOneFee, ExpirationCap, NearExpiry;
    OpenOnesKeepTotals(OpenLoss, ps);
    OpenOnesKeepTotals(OpenUnit, ps);
    RestartKeepsWithin(OpenRisk, ps, Max(0.0, cfg.portfolio.maxTotalOpenRisk));
    forall expiry: Instant
      ensures WithinOneFee(NearRisk(expiry), ForgottenAll(OpenOnes(ps)), ExpirationCap(cfg))
    {
      RestartKeepsWithin(NearRisk(expiry), ps, ExpirationCap(cfg));
    }
  }

  lemma {:induction false} OpenOnesHaveSettledNothing(ps: seq<Position>)
    requires forall p | p in ps :: p.IsOpen()
    ensures Total(ClosedPnl, ps) == 0.0
  {
    if ps != [] {
      OpenOnesHaveSettledNothing(ps[1..]);
    }
  }

  function RebornBaseline(d: Desk): Baseline {
    Baseline(d.book.equity, Total(EntryFee, ForgottenAll(OpenOnes(d.portfolio))), d.session)
  }

  lemma RestartKeepsSound(d: Desk, base: Baseline, nextId: Id, cfg: DeskConfig)
    requires Sound(d, base, cfg) && d.nextId <= nextId
    ensures Sound(Reborn(d, nextId, cfg), RebornBaseline(d), cfg)
  {
    hide Books, Orders, Ledger, FeesMatch, SlipsMatch, SessionAddsUp, Exposure, Reborn, RebornBaseline, ForgottenAll,
      OpenOnes;
    assert Books(d) && Exposure(d.portfolio, cfg.risk);
    RestartKeepsBooks(d, nextId, cfg);
    RestartKeepsExposure(d.portfolio, cfg.risk);
    RestartOpensAccounts(d, nextId, cfg);
  }

  lemma RestartOpensAccounts(d: Desk, nextId: Id, cfg: DeskConfig)
    ensures var next, base := Reborn(d, nextId, cfg), RebornBaseline(d);
      && next.portfolio == ForgottenAll(OpenOnes(d.portfolio))
      && Orders(next, cfg) && Ledger(next, base) && FeesMatch(next, base) && SessionAddsUp(next, base)
      && SlipsMatch(next)
  {
    forall p | p in ForgottenAll(OpenOnes(d.portfolio)) ensures p.IsOpen() {
      KeptAreOpen(d.portfolio, p);
    }
    hide OpenOnes, ForgottenAll, Total, FilledUnder;
    OpenOnesHaveSettledNothing(ForgottenAll(OpenOnes(d.portfolio)));
  }

  lemma KeptAreOpen(ps: seq<Position>, p: Position)
    requires p in ForgottenAll(OpenOnes(ps))
    ensures p.IsOpen()
  {
    var open := OpenOnes(ps);
    var i :| 0 <= i < |open| && ForgottenAll(open)[i] == p;
    assert open[i] in open;
  }

  lemma RestartKeepsBooks(d: Desk, nextId: Id, cfg: DeskConfig)
    requires Books(d) && d.nextId <= nextId
    ensures Books(Reborn(d, nextId, cfg))
  {
    OpenOnesArePending(d.portfolio);
  }

  lemma {:induction false} LivesAreSound(l: Life, cfg: DeskConfig) returns (base: Baseline)
    requires Honest(l, cfg) && cfg.costs.FeePerContract() >= 0.0
    ensures Sound(DeskOf(l, cfg), base, cfg)
    decreases l
  {
    hide Sound, Next, RestoredDesk, IsCapture;
    match l
    case Born =>
      NewDeskIsSound(cfg);
      base := NewBaseline(cfg);
    case After(before, e) =>
      base := LivesAreSound(before, cfg);
      NextKeeps(DeskOf(before, cfg), e, cfg, base);
    case Restarted(crashed, saved, payload) =>
      var held := LivesAreSound(saved, cfg);
      var d := DeskOf(saved, cfg);
      IdentifiersGrow(saved, crashed, cfg);
      SoundBooks(d, held, cfg);
      RestartRecovers(d, payload, DeskOf(crashed, cfg).nextId, cfg);
      RestartKeepsSound(d, held, DeskOf(crashed, cfg).nextId, cfg);
      base := RebornBaseline(d);
  }

  lemma {:induction false} IdentifiersGrow(from: Life, l: Life, cfg: DeskConfig)
    requires Honest(l, cfg) && Continues(from, l) && cfg.costs.FeePerContract() >= 0.0
    ensures DeskOf(from, cfg).nextId <= DeskOf(l, cfg).nextId
    decreases l
  {
    hide Sound, Next, IsCapture;
    if l != from {
      match l
      case Born =>
      case After(before, e) =>
        IdentifiersGrow(from, before, cfg);
        var base := LivesAreSound(before, cfg);
        NextKeeps(DeskOf(before, cfg), e, cfg, base);
      case Restarted(crashed, saved, payload) =>
        IdentifiersGrow(from, crashed, cfg);
    }
  }

  /** In every state of every life, however often it crashed and from whatever save it resumed: the
      books reconcile, identifiers are distinct, and the open count and open risk are within limits. */
  lemma LivesAreSafe(l: Life, cfg: DeskConfig)
    requires Honest(l, cfg) && cfg.costs.FeePerContract() >= 0.0
    requires cfg.risk.portfolio.maxOpenStrategies >= 0 && cfg.risk.portfolio.maxTotalOpenRisk >= 0.0
    ensures var d := DeskOf(l, cfg);
      && Observe(d).reconciled && UniqueIds(d.portfolio)
      && OpenCount(d.portfolio) <= cfg.risk.portfolio.maxOpenStrategies
      && Total(OpenLoss, d.portfolio) <= cfg.risk.portfolio.maxTotalOpenRisk
  {
    hide DeskOf, Sound;
    var base := LivesAreSound(l, cfg);
    SoundIsReconciled(DeskOf(l, cfg), base, cfg);
    SoundIsCapped(DeskOf(l, cfg), base, cfg);
  }

  /** No operator reset since `from`, and every restart since resumed from a save made since. */
  ghost predicate Uninterrupted(from: Life, l: Life) {
    l == from || (match l
                  case Born => false
                  case After(before, e) => !e.ResetSwitch? && Uninterrupted(from, before)
                  case Restarted(_, saved, _) => Uninterrupted(from, saved))
  }

  /** A latched switch survives steps, crashes and restarts, and while it is active the number of open
      positions never grows. */
  lemma {:induction false} SwitchesSurvive(from: Life, l: Life, cfg: DeskConfig)
    requires Honest(l, cfg) && Uninterrupted(from, l) && cfg.costs.FeePerContract() >= 0.0
    ensures Latched(DeskOf(from, cfg).switches, DeskOf(l, cfg).switches)
    ensures DeskOf(from, cfg).switches != map[] ==>
      Total(OpenUnit, DeskOf(l, cfg).portfolio) <= Total(OpenUnit, DeskOf(from, cfg).portfolio)
  {
    hide Sound, Next, Total, RestoredDesk, IsCapture;
    if l != from {
      match l
      case Born =>
      case After(before, e) =>
        SwitchesSurvive(from, before, cfg);
        var base := LivesAreSound(before, cfg);
        NextKeeps(DeskOf(before, cfg), e, cfg, base);
        if DeskOf(from, cfg).switches != map[] {
          StillTripped(DeskOf(from, cfg).switches, DeskOf(before, cfg).switches);
          SameLengthOpensNothing(DeskOf(before, cfg).portfolio, DeskOf(l, cfg).portfolio);
        }
      case Restarted(crashed, saved, payload) =>
        SwitchesSurvive(from, saved, cfg);
        var base := LivesAreSound(saved, cfg);
        var d := DeskOf(saved, cfg);
        SoundBooks(d, base, cfg);
        RestartRecovers(d, payload, DeskOf(crashed, cfg).nextId, cfg);
        OpenOnesKeepTotals(OpenUnit, d.portfolio);
    }
  }

  lemma StillTripped(a: Switches, b: Switches)
    requires a != map[] && Latched(a, b)
    ensures b != map[]
  {
    var r :| r in a;
    assert r in b;
  }

  lemma {:induction false} SameLengthOpensNothing(a: seq<Position>, b: seq<Position>)
    requires Evolves(a, b) && |a| == |b|
    ensures Total(OpenUnit, b) <= Total(OpenUnit, a)
  {
    if a != [] {
      SameLengthOpensNothing(a[1..], b[1..]);
    }
  }
}
