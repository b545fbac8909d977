/** The unattended loop: fault containment, the session-end flatten and shutdown. */
module Supervision {
  import opened Options
  import opened Market
  import opened Positions
  import opened Risk
  import opened Trading
  import opened Totals
  import opened Invariants
  import opened Runs
  import opened Pipeline
  import opened Broker
  import opened StateStore
  import opened Closings

  datatype SupervisorConfig = SupervisorConfig(desk: DeskConfig, maxConsecutiveFailures: int,
      flattenAtSessionEnd: bool, intervalMinutes: real, saveEveryCycle: bool, maxCycles: Option<int>)

  /** One turn of the loop: the session in force, if any, and what the provider would answer; none
      when the provider raises. */
  datatype Moment = Moment(session: Option<int>, minutesLeft: real, flatten: Option<(Snapshot, Draws)>,
      cycle: Option<Input>, stopAsked: bool)

  /** `outcomes` is the history of cycles, true for a failure; `saved` is the desk last saved, none before
      the first save. */
  datatype Watch = Watch(desk: Desk, cycles: nat, decisions: nat, trades: nat, exits: nat, failures: nat,
      consecutive: nat, closedSession: Option<int>, halted: bool, outcomes: seq<bool>, saved: Option<Desk>)

  // ---------------------------------------------------------------- one turn

  predicate FlattenDue(w: Watch, m: Moment, cfg: SupervisorConfig) {
    && cfg.flattenAtSessionEnd && w.closedSession != m.session && OpenOnes(w.desk.portfolio) != []
    && m.minutesLeft <= Max(5.0, cfg.intervalMinutes + 1.0)
  }

  function Escalated(d: Desk): Desk {
    d.(switches := TripIf(d.switches, OpenCount(d.portfolio) > 0, BrokerState, "positions remain open at session end"))
  }

  /** Flatten before the bell, once per session; an error leaves the session unmarked. */
  ghost function AfterFlatten(w: Watch, m: Moment, cfg: SupervisorConfig): Watch {
    if !FlattenDue(w, m, cfg) || m.flatten.None? then w
    else
      var x := Flatten(w.desk, m.flatten.value.0, EndOfSession, cfg.desk, m.flatten.value.1);
      if x.raised then w.(desk := x.desk)
      else w.(desk := Escalated(x.desk), closedSession := m.session, saved := Some(Escalated(x.desk)))
  }

  /** Count a failure; halt under the MANUAL switch once too many came in a row. */
  function Failed(w: Watch, d: Desk, cfg: SupervisorConfig): Watch {
    var halt := w.consecutive + 1 >= cfg.maxConsecutiveFailures;
    w.(desk := d.(switches := TripIf(d.switches, halt, Manual, "consecutive cycle failures")),
       failures := w.failures + 1, consecutive := w.consecutive + 1, halted := w.halted || halt,
       outcomes := w.outcomes + [true])
  }

  /** Count a cycle that went through. */
  function Succeeded(w: Watch, traded: bool, closed: nat): Watch {
    w.(consecutive := 0, decisions := w.decisions + 1, trades := w.trades + (if traded then 1 else 0),
       exits := w.exits + closed, outcomes := w.outcomes + [false])
  }

  ghost function AfterCycle(w: Watch, m: Moment, cfg: SupervisorConfig): Watch {
    if m.cycle.None? then Failed(w, w.desk, cfg)
    else
      var x := Step(w.desk, m.cycle.value, cfg.desk);
      if x.raised then Failed(w, x.desk, cfg)
      else
        var done := Succeeded(w.(desk := x.desk), x.fill.Some?, |x.exits|);
        if cfg.saveEveryCycle then done.(saved := Some(x.desk)) else done
  }

  ghost function Turn(w: Watch, m: Moment, cfg: SupervisorConfig): Watch {
    if m.session.None? then w
    else
      var cycled := AfterCycle(AfterFlatten(w, m, cfg), m, cfg);
      cycled.(cycles := w.cycles + 1)
  }

  /** Leaving the loop saves the desk as it is. */
  function ShutDown(w: Watch): Watch { w.(saved := Some(w.desk)) }

  predicate LoopEnds(w: Watch, m: Moment, cfg: SupervisorConfig) {
    w.halted || m.stopAsked || (cfg.maxCycles.Some? && w.cycles >= cfg.maxCycles.value)
  }

  /** The loop over a feed of moments. */
  ghost function Watched(w: Watch, feed: seq<Moment>, cfg: SupervisorConfig): Watch
    decreases |feed|
  {
    if feed == [] || LoopEnds(w, feed[0], cfg) then w else Watched(Turn(w, feed[0], cfg), feed[1..], cfg)
  }

  // ---------------------------------------------------------------- failures in a row

  /** The last `n` outcomes are failures and the one before them, if any, is not. */
  ghost predicate TrailingFailures(outcomes: seq<bool>, n: nat) {
    && n <= |outcomes|
    && (forall i | |outcomes| - n <= i < |outcomes| :: outcomes[i])
    && (n < |outcomes| ==> !outcomes[|outcomes| - n - 1])
  }

  /** The counter is the trailing run of failures, and the loop is halted, under MANUAL, exactly when
      that run has reached the maximum. */
  ghost predicate CountsFailures(w: Watch, cfg: SupervisorConfig) {
    && TrailingFailures(w.outcomes, w.consecutive)
    && (w.halted <==> w.consecutive >= 1 && w.consecutive >= cfg.maxConsecutiveFailures)
    && (w.halted ==> Manual in w.desk.switches)
  }

  lemma TurnCounts(w: Watch, m: Moment, cfg: SupervisorConfig)
    requires CountsFailures(w, cfg) && !w.halted
    ensures CountsFailures(Turn(w, m, cfg), cfg)
  {
    hide Step, Flatten, Escalated, FlattenDue;
  }

  /** Whatever the provider and the pipeline do, the loop stops by itself exactly when
      max_consecutive_failures cycles in a row have failed, with the MANUAL switch tripped. */
  lemma {:induction false} HaltsExactlyOnRepeatedFailure(w: Watch, feed: seq<Moment>, cfg: SupervisorConfig)
    requires CountsFailures(w, cfg)
    ensures CountsFailures(Watched(w, feed, cfg), cfg)
    decreases |feed|
  {
    hide Turn, CountsFailures;
    if feed != [] && !LoopEnds(w, feed[0], cfg) {
      TurnCounts(w, feed[0], cfg);
      HaltsExactlyOnRepeatedFailure(Turn(w, feed[0], cfg), feed[1..], cfg);
    }
  }

  // ---------------------------------------------------------------- a supervised run is a run

  lemma {:induction false} RunOfJoin(d: Desk, a: seq<Event>, b: seq<Event>, cfg: DeskConfig)
    ensures Run(d, a + b, cfg) == Run(Run(d, a, cfg), b, cfg)
    decreases |b|
  {
    if b == [] {
      assert a + b == a;
    } else {
      RunOfJoin(d, a, b[..|b| - 1], cfg);
      assert (a + b)[..|a + b| - 1] == a + b[..|b| - 1];
    }
  }

  lemma RunOfOne(d: Desk, e: Event, cfg: DeskConfig)
    ensures Run(d, [e], cfg) == Next(d, e, cfg)
  {
    assert [e][..0] == [];
    assert Run(d, [], cfg) == d;
  }

  /** Every turn is a sequence of desk events, none of them a reset. */
  lemma TurnIsARun(w: Watch, m: Moment, cfg: SupervisorConfig) returns (events: seq<Event>)
    ensures NoReset(events) && Turn(w, m, cfg).desk == Run(w.desk, events, cfg.desk)
  {
    hide Step, FlattenFrom, FlattenDue;
    events := [];
    if m.session.Some? {
      var flat := AfterFlatten(w, m, cfg);
      var first := FlattenIsARun(w, m, cfg);
      var second := CycleIsARun(flat, m, cfg);
      RunOfJoin(w.desk, first, second, cfg.desk);
      events := first + second;
    }
  }

  lemma FlattenIsARun(w: Watch, m: Moment, cfg: SupervisorConfig) returns (events: seq<Event>)
    ensures NoReset(events) && AfterFlatten(w, m, cfg).desk == Run(w.desk, events, cfg.desk)
  {
    hide FlattenFrom, FlattenDue, Step;
    events := [];
    if FlattenDue(w, m, cfg) && m.flatten.Some? {
      var x := Flatten(w.desk, m.flatten.value.0, EndOfSession, cfg.desk, m.flatten.value.1);
      var close := ForceClose(m.flatten.value.0, EndOfSession, m.flatten.value.1);
      RunOfOne(w.desk, close, cfg.desk);
      events := [close];
      if !x.raised && OpenCount(x.desk.portfolio) > 0 {
        var trip := TripSwitch(BrokerState, "positions remain open at session end");
        RunOfOne(x.desk, trip, cfg.desk);
        RunOfJoin(w.desk, [close], [trip], cfg.desk);
        events := [close] + [trip];
      }
    }
  }

  lemma CycleIsARun(w: Watch, m: Moment, cfg: SupervisorConfig) returns (events: seq<Event>)
    ensures NoReset(events) && AfterCycle(w, m, cfg).desk == Run(w.desk, events, cfg.desk)
  {
    hide Step, FlattenFrom;
    var trip := TripSwitch(Manual, "consecutive cycle failures");
    var halt := w.consecutive + 1 >= cfg.maxConsecutiveFailures;
    events := [];
    var reached := w.desk;
    if m.cycle.Some? {
      RunOfOne(w.desk, Cycle(m.cycle.value), cfg.desk);
      events := [Cycle(m.cycle.value)];
      reached := Step(w.desk, m.cycle.value, cfg.desk).desk;
    }
    if halt && (m.cycle.None? || Step(w.desk, m.cycle.value, cfg.desk).raised) {
      RunOfOne(reached, trip, cfg.desk);
      RunOfJoin(w.desk, events, [trip], cfg.desk);
      events := events + [trip];
    }
  }

  /** Supervision adds no behaviour: whatever it reaches is reached by a run of desk events without a
      reset, so every theorem about runs holds under it. */
  lemma {:induction false} SupervisionIsARun(w: Watch, feed: seq<Moment>,
      cfg: SupervisorConfig) returns (events: seq<Event>)
    ensures NoReset(events) && Watched(w, feed, cfg).desk == Run(w.desk, events, cfg.desk)
    decreases |feed|
  {
    hide Turn;
    events := [];
    if feed != [] && !LoopEnds(w, feed[0], cfg) {
      var first := TurnIsARun(w, feed[0], cfg);
      var rest := SupervisionIsARun(Turn(w, feed[0], cfg), feed[1..], cfg);
      RunOfJoin(w.desk, first, rest, cfg.desk);
      events := first + rest;
    }
  }

  // ---------------------------------------------------------------- how long the loop runs

  /** A stop asked for ends the loop there, whatever the feed would go on with. */
  lemma {:induction false} StopEndsTheLoop(w: Watch, before: seq<Moment>, m: Moment, after: seq<Moment>,
      cfg: SupervisorConfig)
    requires m.stopAsked
    ensures Watched(w, before + [m] + after, cfg) == Watched(w, before, cfg)
    decreases |before|
  {
    hide Turn;
    var feed := before + [m] + after;
    if before == [] {
      assert feed[0] == m;
    } else {
      assert feed[0] == before[0] && feed[1..] == before[1..] + [m] + after;
      if !LoopEnds(w, before[0], cfg) {
        StopEndsTheLoop(Turn(w, before[0], cfg), before[1..], m, after, cfg);
      }
    }
  }

  /** Over moments inside sessions, none asking to stop, the loop runs one cycle each, up to the configured
      number, unless it halts. */
  lemma {:induction false} LoopRunsExactly(w: Watch, feed: seq<Moment>, cfg: SupervisorConfig)
    requires forall m | m in feed :: m.session.Some? && !m.stopAsked
    ensures var end := Watched(w, feed, cfg);
      end.halted
      || end.cycles == (if cfg.maxCycles.None? || w.cycles + |feed| <= cfg.maxCycles.value then w.cycles + |feed|
                        else if w.cycles <= cfg.maxCycles.value then cfg.maxCycles.value else w.cycles)
    decreases |feed|
  {
    hide AfterCycle, AfterFlatten;
    if feed != [] && !LoopEnds(w, feed[0], cfg) {
      assert feed[0] in feed && forall m | m in feed[1..] :: m in feed;
      LoopRunsExactly(Turn(w, feed[0], cfg), feed[1..], cfg);
    }
  }

  // ---------------------------------------------------------------- what the loop reports

  function Failures(outcomes: seq<bool>): nat {
    if outcomes == [] then 0 else Failures(outcomes[..|outcomes| - 1]) + if outcomes[|outcomes| - 1] then 1 else 0
  }

  /** The cycles, failures and decisions counted are those of the history. */
  ghost predicate CountsHistory(w: Watch) {
    w.cycles == |w.outcomes| && w.failures == Failures(w.outcomes) && w.decisions + w.failures == w.cycles
  }

  lemma TurnCountsHistory(w: Watch, m: Moment, cfg: SupervisorConfig)
    requires CountsHistory(w)
    ensures CountsHistory(Turn(w, m, cfg))
  {
    hide Failures, Step, Flatten, FlattenDue, Escalated, TripIf;
    FailuresOfAppend(w.outcomes, true);
    FailuresOfAppend(w.outcomes, false);
    if m.session.Some? {
      var flat := AfterFlatten(w, m, cfg);
      assert flat.outcomes == w.outcomes && flat.cycles == w.cycles && flat.failures == w.failures
          && flat.decisions == w.decisions;
      hide AfterFlatten;
      if m.cycle.Some? { var x := Step(flat.desk, m.cycle.value, cfg.desk); }
    }
  }

  lemma FailuresOfAppend(outcomes: seq<bool>, failed: bool)
    ensures Failures(outcomes + [failed]) == Failures(outcomes) + if failed then 1 else 0
  {
    assert (outcomes + [failed])[..|outcomes|] == outcomes;
  }

  /** Positions opened match trades, and unless a cycle failed or a flatten ran, positions closed match exits. */
  ghost predicate Reports(w: Watch, next: Watch, flattens: bool) {
    && next.trades - w.trades == |next.desk.portfolio| - |w.desk.portfolio|
    && next.failures >= w.failures
    && (next.failures == w.failures && !flattens ==>
        OpenCount(next.desk.portfolio) + next.exits - w.exits
          == OpenCount(w.desk.portfolio) + next.trades - w.trades)
  }

  lemma FlattenReports(w: Watch, m: Moment, cfg: SupervisorConfig, base: Baseline)
    requires Sound(w.desk, base, cfg.desk)
    ensures Reports(w, AfterFlatten(w, m, cfg), cfg.flattenAtSessionEnd)
  {
    hide Sound, FlattenFrom, OpenCount, Extends;
    SoundBooks(w.desk, base, cfg.desk);
    OpenOnesArePending(w.desk.portfolio);
    if FlattenDue(w, m, cfg) && m.flatten.Some? {
      FlattenKeeps(w.desk, OpenOnes(w.desk.portfolio), m.flatten.value.0, EndOfSession, cfg.desk, m.flatten.value.1,
                   base);
    }
  }

  lemma CycleReports(w: Watch, m: Moment, cfg: SupervisorConfig, base: Baseline)
    requires Sound(w.desk, base, cfg.desk)
    ensures Reports(w, AfterCycle(w, m, cfg), cfg.flattenAtSessionEnd)
  {
    hide Sound, Step, OpenCount;
    if m.cycle.Some? {
      CycleAddsUp(w.desk, m.cycle.value, cfg.desk, base);
    }
  }

  lemma ReportsChain(a: Watch, b: Watch, c: Watch, flattens: bool)
    requires Reports(a, b, flattens) && Reports(b, c, flattens)
    ensures Reports(a, c, flattens)
  {
    hide OpenCount;
  }

  /** The totals a supervised run reports are true: cycles, failures and decisions are those of its history,
      trades are the positions opened, and exits the positions closed when no cycle failed and nothing was
      flattened. */
  lemma {:induction false} TotalsAreTrue(w: Watch, feed: seq<Moment>, cfg: SupervisorConfig, base: Baseline)
    requires Sound(w.desk, base, cfg.desk) && cfg.desk.costs.FeePerContract() >= 0.0 && CountsHistory(w)
    ensures CountsHistory(Watched(w, feed, cfg)) && Reports(w, Watched(w, feed, cfg), cfg.flattenAtSessionEnd)
    decreases |feed|
  {
    hide Sound, OpenCount, AfterCycle, AfterFlatten, Run;
    if feed != [] && !LoopEnds(w, feed[0], cfg) {
      var next := Turn(w, feed[0], cfg);
      if feed[0].session.Some? {
        var flat := AfterFlatten(w, feed[0], cfg);
        var events := FlattenIsARun(w, feed[0], cfg);
        RunKeeps(w.desk, events, cfg.desk, base);
        FlattenReports(w, feed[0], cfg, base);
        CycleReports(flat, feed[0], cfg, base);
        ReportsChain(w, flat, AfterCycle(flat, feed[0], cfg), cfg.flattenAtSessionEnd);
      }
      var events := TurnIsARun(w, feed[0], cfg);
      RunKeeps(w.desk, events, cfg.desk, base);
      TurnCountsHistory(w, feed[0], cfg);
      TotalsAreTrue(next, feed[1..], cfg, base);
      ReportsChain(w, next, Watched(next, feed[1..], cfg), cfg.flattenAtSessionEnd);
    }
  }

  // ---------------------------------------------------------------- the session-end flatten

  /** The flatten ran at this moment, to its end. */
  ghost predicate FlattenRan(w: Watch, m: Moment, cfg: SupervisorConfig) {
    m.session.Some? && w.closedSession != m.session && AfterFlatten(w, m, cfg).closedSession == m.session
  }

  /** Moments of one session, or between sessions. */
  ghost predicate SameSession(feed: seq<Moment>, session: Option<int>) {
    forall m | m in feed :: m.session.None? || m.session == session
  }

  /** No snapshot a cycle decides on is early enough to trade. */
  ghost predicate TooLateToTrade(feed: seq<Moment>, cfg: SupervisorConfig) {
    forall m | m in feed && m.cycle.Some? :: m.cycle.value.snap.minutesToClose < cfg.desk.risk.session.minMinutesToClose
  }

  lemma MarkedTurn(w: Watch, m: Moment, cfg: SupervisorConfig)
    requires w.closedSession.Some? && (m.session.None? || m.session == w.closedSession)
    ensures Turn(w, m, cfg).closedSession == w.closedSession
    ensures Turn(w, m, cfg) == Turn(w, m, cfg.(flattenAtSessionEnd := false))
    ensures m.session.Some? ==> Turn(w, m, cfg).desk == AfterCycle(w, m, cfg).desk
  {
    hide Step, Flatten;
  }

  /** Once a session's flatten has run, the rest of the session goes on as if flattening were off. */
  lemma {:induction false} FlattenOncePerSession(w: Watch, feed: seq<Moment>, cfg: SupervisorConfig)
    requires w.closedSession.Some? && SameSession(feed, w.closedSession)
    ensures Watched(w, feed, cfg) == Watched(w, feed, cfg.(flattenAtSessionEnd := false))
    ensures Watched(w, feed, cfg).closedSession == w.closedSession
    decreases |feed|
  {
    hide Turn;
    if feed != [] && !LoopEnds(w, feed[0], cfg) {
      MarkedTurn(w, feed[0], cfg);
      FlattenOncePerSession(Turn(w, feed[0], cfg), feed[1..], cfg);
    }
  }

  /** The flatten runs, to its end, exactly when it is configured, the session was not flattened yet, a position
      is open, the close is five minutes or one interval and a minute away, the provider answers, and the
      broker is connected or nothing open is quoted. */
  lemma FlattenRunsExactlyWhen(w: Watch, m: Moment, cfg: SupervisorConfig, base: Baseline)
    requires Sound(w.desk, base, cfg.desk)
    ensures FlattenRan(w, m, cfg) <==>
      && m.session.Some? && w.closedSession != m.session && cfg.flattenAtSessionEnd
      && (exists p :: p in w.desk.portfolio && p.IsOpen())
      && (m.minutesLeft <= 5.0 || m.minutesLeft <= cfg.intervalMinutes + 1.0)
      && m.flatten.Some?
      && (w.desk.book.connected
          || forall p | p in w.desk.portfolio && p.IsOpen() :: !Quoted(p, m.flatten.value.0))
  {
    hide Sound, Step, FlattenFrom, Quoted;
    SomeAreOpen(w.desk.portfolio);
    if m.flatten.Some? {
      FlattenFailsExactlyWhen(w.desk, m.flatten.value.0, EndOfSession, cfg.desk, m.flatten.value.1, base);
    }
    hide Flatten;
  }

  lemma SomeAreOpen(ps: seq<Position>)
    ensures OpenOnes(ps) != [] <==> exists p :: p in ps && p.IsOpen()
  {
    if OpenOnes(ps) != [] { assert OpenOnes(ps)[0] in OpenOnes(ps); }
    if p :| p in ps && p.IsOpen() { OpenOnesHold(ps, p); }
  }

  /** A flatten that ran left nothing open unless BROKER_STATE is tripped. */
  lemma FlattenEmptiesOrTrips(w: Watch, m: Moment, cfg: SupervisorConfig)
    requires FlattenRan(w, m, cfg)
    ensures var flat := AfterFlatten(w, m, cfg);
      OpenCount(flat.desk.portfolio) == 0 || BrokerState in flat.desk.switches
  {
    hide Step, FlattenFrom, OpenCount;
  }

  lemma TooLateIsRefused(d: Desk, c: Option<Candidate>, snap: Snapshot, f: Forecast, cfg: DeskConfig)
    requires snap.minutesToClose < cfg.risk.session.minMinutesToClose
    ensures !Evaluation(d, c, snap, f, cfg).decision.approved
  {
    hide SwitchesAfter, SizePosition, CandidateVetoes, PortfolioVetoes, EnvironmentVetoes, BrokerVetoes, AvailableRisk,
      BooksAgree;
  }

  lemma LateStepOpensNothing(d: Desk, x: Input, cfg: DeskConfig, base: Baseline)
    requires Sound(d, base, cfg) && x.snap.minutesToClose < cfg.risk.session.minMinutesToClose
    ensures |Step(d, x, cfg).desk.portfolio| == |d.portfolio|
  {
    hide Sound, Extends, ManageFrom, Evaluation, Execute, RiskBudget;
    SoundBooks(d, base, cfg);
    OpenOnesArePending(d.portfolio);
    ManageKeeps(d, OpenOnes(d.portfolio), x.snap, d.switches != map[], cfg, x.draws, base);
    var m := ManageFrom(d, OpenOnes(d.portfolio), x.snap, d.switches != map[], cfg, x.draws);
    if x.forecast.Some? {
      TooLateIsRefused(m.desk, x.optimize(RiskBudget(m.desk.portfolio, m.desk.book.equity, x.forecast.value, cfg.risk)),
                       x.snap, x.forecast.value, cfg);
    }
  }

  lemma LateCycleOpensNothing(w: Watch, m: Moment, cfg: SupervisorConfig, base: Baseline)
    requires Sound(w.desk, base, cfg.desk) && cfg.desk.costs.FeePerContract() >= 0.0
    requires m.cycle.Some? ==> m.cycle.value.snap.minutesToClose < cfg.desk.risk.session.minMinutesToClose
    ensures var next := AfterCycle(w, m, cfg).desk;
      && Sound(next, base, cfg.desk) && Latched(w.desk.switches, next.switches)
      && OpenCount(next.portfolio) <= OpenCount(w.desk.portfolio)
  {
    var events := CycleIsARun(w, m, cfg);
    RunKeeps(w.desk, events, cfg.desk, base);
    SwitchesHold(w.desk, events, cfg.desk, base);
    hide Sound, Step, Run, OpenCount, Total, Latched;
    if m.cycle.Some? {
      LateStepOpensNothing(w.desk, m.cycle.value, cfg.desk, base);
    }
    var next := AfterCycle(w, m, cfg).desk;
    assert |next.portfolio| == |w.desk.portfolio|;
    SameLengthOpensNothing(w.desk.portfolio, next.portfolio);
    OpenCountIsTotal(w.desk.portfolio);
    OpenCountIsTotal(next.portfolio);
  }

  lemma FlattenOpensNothing(w: Watch, m: Moment, cfg: SupervisorConfig, base: Baseline)
    requires Sound(w.desk, base, cfg.desk) && cfg.desk.costs.FeePerContract() >= 0.0
    ensures var next := AfterFlatten(w, m, cfg).desk;
      && Sound(next, base, cfg.desk) && Latched(w.desk.switches, next.switches)
      && OpenCount(next.portfolio) <= OpenCount(w.desk.portfolio)
  {
    var events := FlattenIsARun(w, m, cfg);
    var next := AfterFlatten(w, m, cfg).desk;
    RunKeeps(w.desk, events, cfg.desk, base);
    SwitchesHold(w.desk, events, cfg.desk, base);
    SoundBooks(w.desk, base, cfg.desk);
    hide Sound, Run, Total, Latched, FlattenFrom, FlattenDue, OpenCount;
    if m.flatten.Some? {
      OpenOnesArePending(w.desk.portfolio);
      FlattenKeeps(w.desk, OpenOnes(w.desk.portfolio), m.flatten.value.0, EndOfSession, cfg.desk, m.flatten.value.1,
                   base);
    }
    assert |next.portfolio| == |w.desk.portfolio|;
    SameLengthOpensNothing(w.desk.portfolio, next.portfolio);
    OpenCountIsTotal(w.desk.portfolio);
    OpenCountIsTotal(next.portfolio);
  }

  lemma LateTurnOpensNothing(w: Watch, m: Moment, cfg: SupervisorConfig, base: Baseline)
    requires Sound(w.desk, base, cfg.desk) && cfg.desk.costs.FeePerContract() >= 0.0
    requires m.cycle.Some? ==> m.cycle.value.snap.minutesToClose < cfg.desk.risk.session.minMinutesToClose
    ensures var next := Turn(w, m, cfg).desk;
      && Sound(next, base, cfg.desk) && Latched(w.desk.switches, next.switches)
      && OpenCount(next.portfolio) <= OpenCount(w.desk.portfolio)
  {
    hide Sound, OpenCount, AfterCycle, AfterFlatten;
    if m.session.Some? {
      FlattenOpensNothing(w, m, cfg, base);
      LateCycleOpensNothing(AfterFlatten(w, m, cfg), m, cfg, base);
    }
  }

  /** While it is too late to trade no switch is cleared and the number of open positions never grows. */
  lemma {:induction false} LateSessionOpensNothing(w: Watch, feed: seq<Moment>, cfg: SupervisorConfig, base: Baseline)
    requires Sound(w.desk, base, cfg.desk) && cfg.desk.costs.FeePerContract() >= 0.0 && TooLateToTrade(feed, cfg)
    ensures var end := Watched(w, feed, cfg).desk;
      Latched(w.desk.switches, end.switches) && OpenCount(end.portfolio) <= OpenCount(w.desk.portfolio)
    decreases |feed|
  {
    hide Sound, OpenCount, Turn;
    if feed != [] && !LoopEnds(w, feed[0], cfg) {
      LateTurnOpensNothing(w, feed[0], cfg, base);
      LateSessionOpensNothing(Turn(w, feed[0], cfg), feed[1..], cfg, base);
    }
  }

  /** A session whose flatten ran ends with nothing open, or with BROKER_STATE tripped, when it was by
      then too late to trade: when the flatten comes later than the last minute a trade is allowed. */
  lemma SessionEndsFlat(w: Watch, m: Moment, feed: seq<Moment>, cfg: SupervisorConfig, base: Baseline)
    requires Sound(w.desk, base, cfg.desk) && cfg.desk.costs.FeePerContract() >= 0.0
    requires FlattenRan(w, m, cfg) && SameSession(feed, m.session)
    requires Max(5.0, cfg.intervalMinutes + 1.0) < cfg.desk.risk.session.minMinutesToClose
    requires forall l | l in [m] + feed && l.cycle.Some? :: l.cycle.value.snap.minutesToClose <= m.minutesLeft
    ensures var end := Watched(Turn(w, m, cfg), feed, cfg).desk;
      OpenCount(end.portfolio) == 0 || BrokerState in end.switches
  {
    assert m.minutesLeft <= Max(5.0, cfg.intervalMinutes + 1.0) by {
      hide Flatten;
    }
    assert m in [m] + feed && forall l | l in feed :: l in [m] + feed;
    var flat := AfterFlatten(w, m, cfg);
    FlattenEmptiesOrTrips(w, m, cfg);
    var events := FlattenIsARun(w, m, cfg);
    RunKeeps(w.desk, events, cfg.desk, base);
    hide Sound, OpenCount, AfterCycle, AfterFlatten, Run;
    LateCycleOpensNothing(flat, m, cfg, base);
    var turned := Turn(w, m, cfg);
    assert turned.closedSession == m.session by { CycleKeepsMark(flat, m, cfg); }
    LateSessionOpensNothing(turned, feed, cfg, base);
  }

  lemma CycleKeepsMark(w: Watch, m: Moment, cfg: SupervisorConfig)
    ensures AfterCycle(w, m, cfg).closedSession == w.closedSession
  {
    hide Step;
  }

  // ---------------------------------------------------------------- what a crash loses

  /** Since `kept` nothing was saved and no cycle went through; every cycle run has failed. */
  ghost predicate OnlyFailures(kept: Watch, end: Watch) {
    && end.saved == kept.saved && end.decisions == kept.decisions
    && end.failures - kept.failures == end.consecutive - kept.consecutive >= 0
  }

  /** One turn saves the desk it leaves, or only the one its flatten left, or nothing. */
  lemma TurnSaves(w: Watch, m: Moment, cfg: SupervisorConfig)
      returns (kept: Watch, before: seq<Event>, since: seq<Event>)
    requires cfg.saveEveryCycle
    ensures OnlyFailures(kept, Turn(w, m, cfg))
    ensures kept == w || (kept.saved == Some(kept.desk) && (kept == Turn(w, m, cfg) || kept == AfterFlatten(w, m, cfg)))
    ensures kept.desk == Run(w.desk, before, cfg.desk) && Turn(w, m, cfg).desk == Run(kept.desk, since, cfg.desk)
  {
    hide Step, Flatten, Escalated, FlattenDue, Run;
    var whole := TurnIsARun(w, m, cfg);
    var flat := AfterFlatten(w, m, cfg);
    if m.session.None? {
      kept, before, since := w, [], whole;
    } else if m.cycle.Some? && !Step(flat.desk, m.cycle.value, cfg.desk).raised {
      kept, before, since := Turn(w, m, cfg), whole, [];
    } else if FlattenDue(w, m, cfg) && m.flatten.Some?
              && !Flatten(w.desk, m.flatten.value.0, EndOfSession, cfg.desk, m.flatten.value.1).raised {
      kept := flat;
      before := FlattenIsARun(w, m, cfg);
      since := CycleIsARun(flat, m, cfg);
    } else {
      kept, before, since := w, [], whole;
    }
    RunOfNothing(kept.desk, cfg.desk);
    RunOfNothing(w.desk, cfg.desk);
  }

  lemma RunOfNothing(d: Desk, cfg: DeskConfig)
    ensures Run(d, [], cfg) == d
  {
  }

  /** A state of the watch at which `kept` is what was last saved: after `i` turns, or after the flatten of
      the next one. */
  ghost predicate SavedAt(w: Watch, feed: seq<Moment>, cfg: SupervisorConfig, i: nat, kept: Watch) {
    && i <= |feed|
    && (kept == Watched(w, feed[..i], cfg)
        || (i < |feed| && kept == AfterFlatten(Watched(w, feed[..i], cfg), feed[i], cfg)))
  }

  lemma SavedLater(w: Watch, feed: seq<Moment>, cfg: SupervisorConfig, i: nat, kept: Watch)
    requires feed != [] && !LoopEnds(w, feed[0], cfg) && SavedAt(Turn(w, feed[0], cfg), feed[1..], cfg, i, kept)
    ensures SavedAt(w, feed, cfg, i + 1, kept)
  {
    hide Turn, AfterFlatten;
    assert feed[..i + 1][1..] == feed[1..][..i] && feed[..i + 1][0] == feed[0];
  }

  lemma SavedNow(w: Watch, feed: seq<Moment>, cfg: SupervisorConfig, kept: Watch) returns (i: nat)
    requires feed != [] && !LoopEnds(w, feed[0], cfg)
    requires kept == w || kept == Turn(w, feed[0], cfg) || kept == AfterFlatten(w, feed[0], cfg)
    ensures SavedAt(w, feed, cfg, i, kept)
  {
    hide Turn, AfterFlatten;
    assert feed[..0] == [] && feed[..1][1..] == [] && feed[..1][0] == feed[0];
    i := if kept == Turn(w, feed[0], cfg) then 1 else 0;
    if i == 1 {
      assert Watched(w, feed[..1], cfg) == Watched(Turn(w, feed[0], cfg), [], cfg);
    }
  }

  /** With a save after every cycle, what the store holds is the desk after the last cycle that went
      through or the last flatten that completed, and every cycle since has failed: a crash loses exactly
      those, not the last one alone. `before` leads to what was saved and `since` to the crash. */
  lemma {:induction false} CrashLosesFailedCycles(w: Watch, feed: seq<Moment>, cfg: SupervisorConfig)
      returns (i: nat, kept: Watch, before: seq<Event>, since: seq<Event>)
    requires cfg.saveEveryCycle
    ensures SavedAt(w, feed, cfg, i, kept) && OnlyFailures(kept, Watched(w, feed, cfg))
    ensures kept == w || kept.saved == Some(kept.desk)
    ensures kept.desk == Run(w.desk, before, cfg.desk)
    ensures Watched(w, feed, cfg).desk == Run(kept.desk, since, cfg.desk)
    decreases |feed|
  {
    hide Turn, AfterFlatten, SavedAt, Run;
    i, kept, before, since := 0, w, [], [];
    if feed == [] || LoopEnds(w, feed[0], cfg) {
      NothingRun(w, feed, cfg);
    } else {
      var turned := Turn(w, feed[0], cfg);
      i, kept, before, since := CrashLosesFailedCycles(turned, feed[1..], cfg);
      if kept == turned {
        var later := since;
        kept, before, since := TurnSaves(w, feed[0], cfg);
        RunOfJoin(kept.desk, since, later, cfg.desk);
        since := since + later;
        i := SavedNow(w, feed, cfg, kept);
      } else {
        SavedLater(w, feed, cfg, i, kept);
        var first := TurnIsARun(w, feed[0], cfg);
        RunOfJoin(w.desk, first, before, cfg.desk);
        i, before := i + 1, first + before;
      }
    }
  }

  lemma NothingRun(w: Watch, feed: seq<Moment>, cfg: SupervisorConfig)
    ensures SavedAt(w, feed, cfg, 0, w) && Run(w.desk, [], cfg.desk) == w.desk
    ensures feed == [] || LoopEnds(w, feed[0], cfg) ==> OnlyFailures(w, Watched(w, feed, cfg))
  {
    assert feed[..0] == [];
  }

  /** While the loop has not halted, fewer failed cycles than the maximum in a row are unsaved. */
  lemma UnsavedIsBounded(kept: Watch, end: Watch, cfg: SupervisorConfig)
    requires OnlyFailures(kept, end) && CountsFailures(end, cfg) && !end.halted
    ensures end.failures == kept.failures || end.failures - kept.failures < cfg.maxConsecutiveFailures
  {
  }

  /** An instance: under a tripped switch a cycle closes the only position and then fails for want of a
      forecast. The position is settled, and the desk last saved still holds it open. */
  lemma FailedCycleForgets(w: Watch, m: Moment, x: Input, p: Position, cfg: SupervisorConfig)
    requires m.session.Some? && m.cycle == Some(x) && x.tradeable && x.forecast.None? && !cfg.flattenAtSessionEnd
    requires w.desk.portfolio == [p] && p.IsOpen() && w.desk.switches != map[] && w.saved == Some(w.desk)
    requires HalfClose(p, x.snap, cfg.desk) && x.draws(w.desk.nextId, 0)
    requires CanSubmit(w.desk.book, CloseOrder(p, 3.0, w.desk.nextId))
    ensures var next := Turn(w, m, cfg);
      && |next.desk.portfolio| == 1 && !next.desk.portfolio[0].IsOpen()
      && next.saved == Some(w.desk) && w.desk.portfolio[0].IsOpen() && next.consecutive == w.consecutive + 1
  {
    var marked := Mark(p, x.snap, cfg.desk.manager);
    var d := Remark(w.desk, marked);
    assert d.portfolio == [marked];
    assert OpenOnes([p]) == [p] by { assert [p][1..] == [] && OpenOnes([p][1..]) == []; }
    HalfCloseBooksTwice(marked, x.snap, cfg.desk, x.draws, d, KillSwitchExit);
    hide ClosePosition, Mark, HalfClose, CanSubmit, Remark, OpenOnes;
    assert CheckExit(marked, x.snap, cfg.desk.manager, true) == Some(KillSwitchExit);
    hide CheckExit;
    var c := ManageOne(w.desk, p, x.snap, true, cfg.desk, x.draws);
    assert [p][1..] == [];
    assert ManageFrom(c.desk, [], x.snap, true, cfg.desk, x.draws) == Outcome(c.desk, [], None, false);
    hide ManageOne;
    assert ManageFrom(w.desk, [p], x.snap, true, cfg.desk, x.draws).desk == c.desk;
  }

  /** A life continued by desk events. */
  function Lived(l: Life, events: seq<Event>): Life {
    if events == [] then l else After(Lived(l, events[..|events| - 1]), events[|events| - 1])
  }

  lemma {:induction false} LivedIsARun(l: Life, events: seq<Event>, cfg: DeskConfig)
    ensures DeskOf(Lived(l, events), cfg) == Run(DeskOf(l, cfg), events, cfg)
    ensures Continues(l, Lived(l, events)) && (Honest(l, cfg) ==> Honest(Lived(l, events), cfg))
  {
    hide Next;
    if events != [] {
      LivedIsARun(l, events[..|events| - 1], cfg);
    }
  }

  lemma {:induction false} LivedTwice(l: Life, a: seq<Event>, b: seq<Event>)
    ensures Lived(l, a + b) == Lived(Lived(l, a), b)
  {
    if b == [] {
      assert a + b == a;
    } else {
      LivedTwice(l, a, b[..|b| - 1]);
      assert (a + b)[..|a + b| - 1] == a + b[..|b| - 1];
    }
  }

  /** What the supervisor saved is an earlier moment of the life it watches, so a restart from its store
      after a crash is a life, and every theorem about lives holds of it. */
  lemma RestartFromStoreIsALife(l: Life, w: Watch, feed: seq<Moment>, cfg: SupervisorConfig, payload: Payload)
      returns (reborn: Life)
    requires Honest(l, cfg.desk) && DeskOf(l, cfg.desk) == w.desk && w.saved == Some(w.desk) && cfg.saveEveryCycle
    requires Watched(w, feed, cfg).saved.Some? && IsCapture(payload, Watched(w, feed, cfg).saved.value)
    ensures Honest(reborn, cfg.desk) && Continues(l, reborn)
    ensures DeskOf(reborn, cfg.desk)
         == RestoredDesk(NewDesk(cfg.desk).(nextId := Watched(w, feed, cfg).desk.nextId), payload)
  {
    hide Watched, AfterFlatten, IsCapture, RestoredDesk, NewDesk, Run, SavedAt;
    var i, kept, before, since := CrashLosesFailedCycles(w, feed, cfg);
    var saved := Lived(l, before);
    var crashed := Lived(saved, since);
    LivedIsARun(l, before, cfg.desk);
    LivedIsARun(saved, since, cfg.desk);
    ContinuesOn(l, saved, crashed);
    reborn := Restarted(crashed, saved, payload);
  }

  lemma {:induction false} ContinuesOn(a: Life, b: Life, c: Life)
    requires Continues(a, b) && Continues(b, c)
    ensures Continues(a, c)
  {
    if c != b {
      match c
      case Born =>
      case After(before, _) => ContinuesOn(a, b, before);
      case Restarted(crashed, _, _) => ContinuesOn(a, b, crashed);
    }
  }

  // ---------------------------------------------------------------- the supervisor

  /** The desk a run begins with: restored from the store, BROKER_STATE tripped when the books disagree. */
  ghost function Started(d: Desk, row: Option<Row>): Desk {
    var restored := if row.Some? then RestoredDesk(d, row.value.payload) else d;
    restored.(switches := TripIf(restored.switches, !Observe(restored).reconciled, BrokerState,
                                 "startup reconciliation failed"))
  }

  class Supervisor {
    const config: SupervisorConfig
    const pipeline: DecisionPipeline
    const store: RuntimeStateStore
    var cycles: nat
    var decisions: nat
    var trades: nat
    var exits: nat
    var failures: nat
    var consecutive: nat
    var closedSession: Option<int>
    var halted: bool
    ghost var outcomes: seq<bool>
    ghost var saved: Option<Desk>

    ghost function View(): Watch
      reads this, pipeline, pipeline.broker, pipeline.portfolio, pipeline.risk.session, pipeline.risk.killSwitch
    {
      Watch(pipeline.View(), cycles, decisions, trades, exits, failures, consecutive, closedSession, halted, outcomes,
            saved)
    }

    /** The store holds a capture of the desk last saved. */
    ghost predicate HoldsSaved()
      reads this, store
    {
      saved.Some? ==>
        store.row.Some? && store.row.value.schema == SCHEMA_VERSION && IsCapture(store.row.value.payload, saved.value)
    }

    predicate Valid() { pipeline.Valid() && pipeline.config == config.desk }

    constructor (config: SupervisorConfig, pipeline: DecisionPipeline, store: RuntimeStateStore)
      requires pipeline.Valid() && pipeline.config == config.desk
      ensures Valid() && this.pipeline == pipeline && this.store == store && this.config == config
      ensures View() == Watch(pipeline.View(), 0, 0, 0, 0, 0, 0, None, false, [], None)
      ensures CountsFailures(View(), config) && HoldsSaved()
    {
      this.config, this.pipeline, this.store := config, pipeline, store;
      cycles, decisions, trades, exits, failures, consecutive := 0, 0, 0, 0, 0, 0;
      closedSession, halted, outcomes, saved := None, false, [], None;
    }

    method Save()
      modifies this`saved, store
      ensures HoldsSaved() && saved == Some(pipeline.View())
    {
      hide IsCapture;
      store.Save(pipeline);
      saved := Some(pipeline.View());
    }

    method OnFailure()
      requires Valid()
      modifies this, pipeline.risk.killSwitch
      ensures saved == old(saved)
      ensures View() == Failed(old(View()), old(View()).desk, config)
    {
      failures := failures + 1;
      consecutive := consecutive + 1;
      outcomes := outcomes + [true];
      if consecutive >= config.maxConsecutiveFailures {
        pipeline.risk.killSwitch.Trip(Manual, "consecutive cycle failures");
        halted := true;
      }
    }

    method OnSuccess(traded: bool, closed: nat)
      modifies this
      ensures saved == old(saved)
      ensures View() == Succeeded(old(View()), traded, closed)
    {
      consecutive := 0;
      decisions := decisions + 1;
      trades := trades + (if traded then 1 else 0);
      exits := exits + closed;
      outcomes := outcomes + [false];
    }

    lemma FailureForgets(w: Watch, d: Desk)
      ensures Failed(w.(desk := d), d, config) == Failed(w, d, config)
    {
    }

    method RunCycle(m: Moment)
      requires Valid() && HoldsSaved()
      modifies this, store, pipeline, pipeline.broker, pipeline.portfolio, pipeline.risk.session,
        pipeline.risk.killSwitch
      ensures View() == AfterCycle(old(View()), m, config) && HoldsSaved()
    {
      hide Step, Failed, Succeeded, IsCapture;
      if m.cycle.None? {
        OnFailure();
        return;
      }
      var closed, fill, raised := pipeline.Step(m.cycle.value);
      assert View() == old(View()).(desk := Step(old(View()).desk, m.cycle.value, config.desk).desk);
      if raised {
        FailureForgets(old(View()), View().desk);
        OnFailure();
        return;
      }
      OnSuccess(fill.Some?, |closed|);
      if config.saveEveryCycle {
        Save();
      }
    }

    method MaybeCloseForSessionEnd(m: Moment)
      requires Valid() && HoldsSaved()
      modifies this, store, pipeline, pipeline.broker, pipeline.portfolio, pipeline.risk.session,
        pipeline.risk.killSwitch
      ensures View() == AfterFlatten(old(View()), m, config) && HoldsSaved()
    {
      hide FlattenFrom, OpenCount, IsCapture, OpenOnes;
      if !config.flattenAtSessionEnd || closedSession == m.session || OpenOnes(pipeline.portfolio.positions) == [] {
        return;
      }
      var threshold := Max(5.0, config.intervalMinutes + 1.0);
      if m.minutesLeft > threshold || m.flatten.None? {
        return;
      }
      var closed, raised := pipeline.ForceCloseAll(m.flatten.value.0, EndOfSession, m.flatten.value.1);
      if raised {
        return;
      }
      closedSession := m.session;
      var stranded := OpenCount(pipeline.portfolio.positions);
      if stranded > 0 {
        pipeline.risk.killSwitch.Trip(BrokerState, "positions remain open at session end");
      }
      Save();
    }

    /** Restore, then compare the restored book with the broker's. */
    method Startup() returns (report: Report)
      requires Valid()
      modifies pipeline`hiddenBelief, pipeline.broker, pipeline.portfolio, pipeline.risk.session,
        pipeline.risk.killSwitch
      ensures report.SchemaMismatch? <==> store.row.Some? && store.row.value.schema != SCHEMA_VERSION
      ensures report.SchemaMismatch? ==> pipeline.View() == old(pipeline.View())
      ensures !report.SchemaMismatch? ==> pipeline.View() == Started(old(pipeline.View()), store.row)
    {
      hide RestoredDesk, OpenOnes;
      report := store.Restore(pipeline);
      if report.SchemaMismatch? {
        return;
      }
      var discrepancies := Reconcile(OpenOnes(pipeline.portfolio.positions), OpenOnes(pipeline.broker.positions));
      if discrepancies != [] {
        pipeline.risk.killSwitch.Trip(BrokerState, "startup reconciliation failed");
      }
    }

    /** Start up, then loop; on leaving the loop the store holds the final state. A store of another
        schema stops it before the first moment. */
    method Run(feed: seq<Moment>) returns (report: Report)
      requires Valid() && HoldsSaved()
      modifies this, store, pipeline, pipeline.broker, pipeline.portfolio, pipeline.risk.session,
        pipeline.risk.killSwitch
      ensures report.SchemaMismatch? <==> old(store.row).Some? && old(store.row).value.schema != SCHEMA_VERSION
      ensures report.SchemaMismatch? ==> View() == old(View()) && store.row == old(store.row)
      ensures !report.SchemaMismatch? ==>
        && View() == ShutDown(Watched(old(View()).(desk := Started(old(View()).desk, old(store.row))), feed, config))
        && HoldsSaved()
    {
      hide Started, Watched, IsCapture;
      report := Startup();
      if !report.SchemaMismatch? {
        Loop(feed);
      }
    }

    method Loop(feed: seq<Moment>)
      requires Valid() && HoldsSaved()
      modifies this, store, pipeline, pipeline.broker, pipeline.portfolio, pipeline.risk.session,
        pipeline.risk.killSwitch
      ensures View() == ShutDown(Watched(old(View()), feed, config)) && HoldsSaved()
    {
      hide AfterCycle, AfterFlatten, IsCapture;
      ghost var whole := Watched(View(), feed, config);
      var i := 0;
      assert feed[0..] == feed;
      while i < |feed| && !halted && !feed[i].stopAsked && !(config.maxCycles.Some? && cycles >= config.maxCycles.value)
        invariant i <= |feed| && HoldsSaved()
        invariant Watched(View(), feed[i..], config) == whole
      {
        assert feed[i..][1..] == feed[i + 1..];
        var m := feed[i];
        if m.session.Some? {
          TurnKeepsCount(View(), m);
          MaybeCloseForSessionEnd(m);
          RunCycle(m);
          cycles := cycles + 1;
        }
        i := i + 1;
      }
      Save();
    }

    lemma TurnKeepsCount(w: Watch, m: Moment)
      ensures AfterFlatten(w, m, config).cycles == w.cycles
      ensures AfterCycle(AfterFlatten(w, m, config), m, config).cycles == w.cycles
    {
      hide Step, FlattenFrom, FlattenDue;
    }
  }
}
