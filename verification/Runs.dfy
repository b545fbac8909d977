/** Theorems over every run of the desk. */
module Runs {
  import opened Options
  import opened Market
  import opened Payoff
  import opened Positions
  import opened Broker
  import opened Risk
  import opened Trading
  import opened Totals
  import opened Invariants

  // ---------------------------------------------------------------- walking the open positions

  /** The positions still to visit are open entries of the portfolio, each once. */
  ghost predicate Pending(ps: seq<Position>, todo: seq<Position>) {
    UniqueIds(todo) && forall p | p in todo :: p in ps && p.IsOpen()
  }

  lemma {:induction false} OpenOnesArePending(ps: seq<Position>)
    requires UniqueIds(ps)
    ensures Pending(ps, OpenOnes(ps))
  {
    if ps != [] {
      OpenOnesArePending(ps[1..]);
      var rest := OpenOnes(ps[1..]);
      if ps[0].IsOpen() {
        var all := [ps[0]] + rest;
        forall i, j | 0 <= i < j < |all| ensures all[i].id != all[j].id {
          assert all[j] == rest[j - 1] && rest[j - 1] in ps[1..];
          if i > 0 { assert all[i] == rest[i - 1]; }
        }
        assert OpenOnes(ps) == all;
      } else {
        assert OpenOnes(ps) == rest;
      }
    }
  }

  /** Changing one entry leaves the others pending. */
  lemma PendingAfter(ps: seq<Position>, next: seq<Position>, i: nat, todo: seq<Position>)
    requires UniqueIds(ps) && todo != [] && Pending(ps, todo) && i < |ps| == |next| && ps[i] == todo[0]
    requires forall j | 0 <= j < |ps| && j != i :: next[j] == ps[j]
    ensures Pending(next, todo[1..])
  {
    forall p | p in todo[1..] ensures p in next {
      var k :| 1 <= k < |todo| && todo[k] == p;
      assert todo[k] in todo;
      var j :| 0 <= j < |ps| && ps[j] == p;
      assert todo[0].id != todo[k].id;
      assert next[j] == p;
    }
  }

  /** What a walk over open positions guarantees. */
  ghost predicate Keeps(d: Desk, next: Desk, base: Baseline, cfg: DeskConfig) {
    && Sound(next, base, cfg) && Extends(d, next)
    && next.switches == d.switches && |next.portfolio| == |d.portfolio|
  }

  lemma KeepsIsTransitive(a: Desk, b: Desk, c: Desk, base: Baseline, cfg: DeskConfig)
    requires Keeps(a, b, base, cfg) && Keeps(b, c, base, cfg)
    ensures Keeps(a, c, base, cfg)
  {
    hide Sound, Extends;
    ExtendsIsTransitive(a, b, c);
  }

  lemma SoundBooks(d: Desk, base: Baseline, cfg: DeskConfig)
    requires Sound(d, base, cfg)
    ensures UniqueIds(d.portfolio) && Matched(d.portfolio, d.book.positions)
  {
  }

  lemma ManageOneKeeps(d: Desk, i: nat, snap: Snapshot, killSwitchActive: bool, cfg: DeskConfig, draws: Draws,
      base: Baseline)
    requires Sound(d, base, cfg) && i < |d.portfolio| && d.portfolio[i].IsOpen()
    ensures var c := ManageOne(d, d.portfolio[i], snap, killSwitchActive, cfg, draws);
      && Keeps(d, c.desk, base, cfg)
      && (forall j | 0 <= j < |d.portfolio| && j != i :: c.desk.portfolio[j] == d.portfolio[j])
  {
    hide Sound, Extends, ClosePosition, CheckExit, Mark, Remark;
    var marked := Mark(d.portfolio[i], snap, cfg.manager);
    var d1 := Remark(d, marked);
    RemarkKeeps(d, i, marked, base, cfg);
    RemarkTouchesOne(d, marked);
    var signal := CheckExit(marked, snap, cfg.manager, killSwitchActive);
    if signal.Some? {
      ClosePositionKeeps(d1, i, marked, snap, signal.value, cfg, draws, base);
      KeepsIsTransitive(d, d1, ClosePosition(d1, marked, snap, signal.value, cfg, draws).desk, base, cfg);
    }
  }

  lemma {:induction false} ManageKeeps(d: Desk, todo: seq<Position>, snap: Snapshot, killSwitchActive: bool,
      cfg: DeskConfig, draws: Draws, base: Baseline)
    requires Sound(d, base, cfg) && Pending(d.portfolio, todo)
    ensures Keeps(d, ManageFrom(d, todo, snap, killSwitchActive, cfg, draws).desk, base, cfg)
    decreases |todo|
  {
    hide Sound, Extends, ManageOne;
    if todo == [] {
      ExtendsItself(d);
    } else {
      assert todo[0] in todo;
      var i :| 0 <= i < |d.portfolio| && d.portfolio[i] == todo[0];
      SoundBooks(d, base, cfg);
      var c := ManageOne(d, todo[0], snap, killSwitchActive, cfg, draws);
      ManageOneKeeps(d, i, snap, killSwitchActive, cfg, draws, base);
      if !c.Broken? {
        PendingAfter(d.portfolio, c.desk.portfolio, i, todo);
        ManageKeeps(c.desk, todo[1..], snap, killSwitchActive, cfg, draws, base);
        KeepsIsTransitive(d, c.desk, ManageFrom(c.desk, todo[1..], snap, killSwitchActive, cfg, draws).desk, base, cfg);
      }
    }
  }

  lemma RemarkTouchesOne(d: Desk, p: Position)
    ensures Remark(d, p).switches == d.switches
  {
  }

  lemma {:induction false} FlattenKeeps(d: Desk, todo: seq<Position>, snap: Snapshot, reason: ExitReason,
      cfg: DeskConfig, draws: Draws, base: Baseline)
    requires Sound(d, base, cfg) && Pending(d.portfolio, todo)
    ensures Keeps(d, FlattenFrom(d, todo, snap, reason, cfg, draws).desk, base, cfg)
    decreases |todo|
  {
    hide Sound, Extends, ClosePosition, Mark;
    if todo == [] {
      ExtendsItself(d);
    } else {
      assert todo[0] in todo;
      var i :| 0 <= i < |d.portfolio| && d.portfolio[i] == todo[0];
      SoundBooks(d, base, cfg);
      var marked := Mark(todo[0], snap, cfg.manager);
      var c := ClosePosition(d, marked, snap, reason, cfg, draws);
      ClosePositionKeeps(d, i, marked, snap, reason, cfg, draws, base);
      if !c.Broken? {
        PendingAfter(d.portfolio, c.desk.portfolio, i, todo);
        FlattenKeeps(c.desk, todo[1..], snap, reason, cfg, draws, base);
        KeepsIsTransitive(d, c.desk, FlattenFrom(c.desk, todo[1..], snap, reason, cfg, draws).desk, base, cfg);
      }
    }
  }

  // ---------------------------------------------------------------- one cycle

  lemma ApprovalGrants(d: Desk, c: Candidate, snap: Snapshot, f: Forecast, cfg: DeskConfig)
    requires Evaluation(d, Some(c), snap, f, cfg).decision.approved
    ensures var v := Evaluation(d, Some(c), snap, f, cfg);
      v.switches == map[] && Granted(Judged(d, v, snap.day), c, v.decision.maxContracts, cfg)
  {
    hide Judge, AvailableRisk, OpenCount, BooksAgree;
    ApprovalMeans(Some(c), d.session, d.switches, snap, f, d.portfolio, Observe(d), cfg.risk);
  }

  lemma DecideKeeps(d: Desk, snap: Snapshot, f: Forecast, optimize: real -> Option<Candidate>, cfg: DeskConfig,
      draws: Draws, base: Baseline)
    requires Sound(d, base, cfg) && cfg.costs.FeePerContract() >= 0.0
    ensures var next := Decide(d, snap, f, optimize, cfg, draws).desk;
      && Sound(next, base, cfg) && Extends(d, next) && Latched(d.switches, next.switches)
      && (d.switches != map[] ==> next.portfolio == d.portfolio)
  {
    hide Sound, Extends, Execute, Evaluation, RiskBudget, Granted;
    var c := optimize(RiskBudget(d.portfolio, d.book.equity, f, cfg.risk));
    var v := Evaluation(d, c, snap, f, cfg);
    var judged := Judged(d, v, snap.day);
    JudgedKeeps(d, c, snap, f, base, cfg);
    if c.Some? && v.decision.approved {
      ApprovalGrants(d, c.value, snap, f, cfg);
      GrantedParts(judged, c.value, v.decision.maxContracts, cfg);
      ExecuteKeeps(judged, c.value, v.decision, snap, cfg, draws, base);
      ExtendsIsTransitive(d, judged, Execute(judged, c.value, v.decision, snap, cfg, draws).desk);
      NothingToLatch(d.switches, v.switches);
    }
  }

  lemma NothingToLatch(a: Switches, b: Switches)
    requires Latched(a, b) && b == map[]
    ensures a == map[]
  {
    assert forall r :: r !in a;
  }

  lemma StepKeeps(d: Desk, x: Input, cfg: DeskConfig, base: Baseline)
    requires Sound(d, base, cfg) && cfg.costs.FeePerContract() >= 0.0
    ensures var next := Step(d, x, cfg).desk;
      && Sound(next, base, cfg) && Extends(d, next) && Latched(d.switches, next.switches)
      && (d.switches != map[] ==> |next.portfolio| == |d.portfolio|)
  {
    hide Sound, Extends, ManageFrom, Decide;
    SoundBooks(d, base, cfg);
    OpenOnesArePending(d.portfolio);
    var m := ManageFrom(d, OpenOnes(d.portfolio), x.snap, d.switches != map[], cfg, x.draws);
    ManageKeeps(d, OpenOnes(d.portfolio), x.snap, d.switches != map[], cfg, x.draws, base);
    if !m.raised && x.tradeable && x.forecast.Some? {
      DecideKeeps(m.desk, x.snap, x.forecast.value, x.optimize, cfg, x.draws, base);
      ExtendsIsTransitive(d, m.desk, Decide(m.desk, x.snap, x.forecast.value, x.optimize, cfg, x.draws).desk);
    }
  }

  /** Connectivity and switches are outside the accounts. */
  lemma FlagsAreOutsideTheAccounts(d: Desk, connected: bool, switches: Switches, base: Baseline, cfg: DeskConfig)
    requires Sound(d, base, cfg)
    ensures var next := d.(book := d.book.(connected := connected), switches := switches);
      Sound(next, base, cfg) && Extends(d, next)
  {
    hide Total, FilledUnder, OpenCommissions, ReplayFrom, TradesOf, PnlSum, Exposure, Matched, UniqueIds;
  }

  lemma NextKeeps(d: Desk, e: Event, cfg: DeskConfig, base: Baseline)
    requires Sound(d, base, cfg) && cfg.costs.FeePerContract() >= 0.0
    ensures var next := Next(d, e, cfg);
      && Sound(next, base, cfg) && Extends(d, next)
      && (!e.ResetSwitch? ==> Latched(d.switches, next.switches))
      && (d.switches != map[] ==> |next.portfolio| == |d.portfolio|)
  {
    hide Sound, Extends, Step, FlattenFrom;
    match e
    case Cycle(x) =>
      StepKeeps(d, x, cfg, base);
    case ForceClose(snap, reason, draws) =>
      SoundBooks(d, base, cfg);
      OpenOnesArePending(d.portfolio);
      FlattenKeeps(d, OpenOnes(d.portfolio), snap, reason, cfg, draws, base);
    case Disconnect => FlagsAreOutsideTheAccounts(d, false, d.switches, base, cfg);
    case Reconnect => FlagsAreOutsideTheAccounts(d, true, d.switches, base, cfg);
    case TripSwitch(r, detail) =>
      FlagsAreOutsideTheAccounts(d, d.book.connected, Tripped(d.switches, r, detail), base, cfg);
    case ResetSwitch(which) =>
      FlagsAreOutsideTheAccounts(d, d.book.connected, if which.None? then map[] else d.switches - {which.value}, base,
                                 cfg);
  }

  // ---------------------------------------------------------------- every exit that fires is tried

  /** Order `id` offsets the position, and if it filled the position is closed for this reason. */
  ghost predicate ClosesBy(after: Desk, id: Id, p: Position, reason: ExitReason)
    requires id in after.book.orders
  {
    var o := after.book.orders[id];
    && o.intent.CloseIntent? && o.strategy.legs == InvertedLegs(p.strategy.legs) && o.contracts == p.contracts
    && (o.filled >= 1 ==> IsClosedFor(after.portfolio, p.id, reason))
  }

  ghost predicate IsClosedFor(ps: seq<Position>, id: Id, reason: ExitReason) {
    exists i :: 0 <= i < |ps| && ps[i].id == id && !ps[i].IsOpen() && ps[i].exitReason == Some(reason)
  }

  /** A new order was sent for it. */
  ghost predicate ExitTried(before: Desk, after: Desk, p: Position, reason: ExitReason) {
    exists id :: before.nextId <= id && id in after.book.orders && ClosesBy(after, id, p, reason)
  }

  predicate Quoted(p: Position, snap: Snapshot) { QuotesFor(snap.chain, p.strategy.legs).Some? }

  lemma CloseIsTried(d: Desk, i: nat, p: Position, snap: Snapshot, reason: ExitReason, cfg: DeskConfig, draws: Draws,
      base: Baseline)
    requires Sound(d, base, cfg) && Successor(d.portfolio, i, p) && p.IsOpen() && d.book.connected
    ensures var c := ClosePosition(d, p, snap, reason, cfg, draws);
      && !c.Broken? && c.desk.book.connected
      && (Quoted(p, snap) ==> ExitTried(d, c.desk, p, reason))
  {
    hide Work, BookedPnl, Sound, Extends, QuotesFor;
    var c := ClosePosition(d, p, snap, reason, cfg, draws);
    var price := ClosePrice(p, snap, cfg.manager);
    FreshOrder(d, base, cfg);
    if price.Some? {
      var o := CloseOrder(p, price.value, d.nextId);
      var r := Work(o, snap, cfg, draws);
      assert GoodTerms(d.portfolio[i]) by { SoundParts(d, base, cfg); }
      WorkIsWorked(d, o, snap, cfg, draws);
      ClosePositionKeeps(d, i, p, snap, reason, cfg, draws, base);
      SoundBooks(d, base, cfg);
      ReplacedIsUpdate(d.portfolio, i, p.Closed(snap.timestamp, if r.fill.Some? then BookedPnl(p, r) else 0.0, reason));
      assert ClosesBy(c.desk, o.id, p, reason);
    }
  }

  lemma FreshOrder(d: Desk, base: Baseline, cfg: DeskConfig)
    requires Sound(d, base, cfg)
    ensures d.nextId !in d.book.orders
  {
  }

  lemma TriedPersists(before: Desk, mid: Desk, after: Desk, p: Position, reason: ExitReason)
    requires ExitTried(before, mid, p, reason) && Extends(mid, after)
    ensures ExitTried(before, after, p, reason)
  {
    var id :| before.nextId <= id && id in mid.book.orders && ClosesBy(mid, id, p, reason);
    if mid.book.orders[id].filled >= 1 {
      var i :| 0 <= i < |mid.portfolio| && mid.portfolio[i].id == p.id && !mid.portfolio[i].IsOpen()
        && mid.portfolio[i].exitReason == Some(reason);
      assert after.portfolio[i] == mid.portfolio[i];
    }
    assert ClosesBy(after, id, p, reason);
  }

  lemma TriedSince(before: Desk, mid: Desk, after: Desk, p: Position, reason: ExitReason)
    requires Extends(before, mid) && ExitTried(mid, after, p, reason)
    ensures ExitTried(before, after, p, reason)
  {
    hide ClosesBy;
  }

  lemma SameTermsSameExit(before: Desk, after: Desk, p: Position, q: Position, reason: ExitReason)
    requires ExitTried(before, after, p, reason) && p.SameTerms(q)
    ensures ExitTried(before, after, q, reason)
  {
    var id :| before.nextId <= id && id in after.book.orders && ClosesBy(after, id, p, reason);
    hide IsClosedFor;
    assert ClosesBy(after, id, q, reason);
  }

  /** The exit the manager finds for a position, once it is marked. */
  function Due(p: Position, snap: Snapshot, killSwitchActive: bool, cfg: DeskConfig): Option<ExitReason> {
    CheckExit(Mark(p, snap, cfg.manager), snap, cfg.manager, killSwitchActive)
  }

  lemma DueIsTried(d: Desk, i: nat, snap: Snapshot, killSwitchActive: bool, cfg: DeskConfig, draws: Draws,
      base: Baseline)
    requires Sound(d, base, cfg) && i < |d.portfolio| && d.portfolio[i].IsOpen() && d.book.connected
    ensures var p := d.portfolio[i]; var c := ManageOne(d, p, snap, killSwitchActive, cfg, draws);
      && !c.Broken? && c.desk.book.connected
      && (Due(p, snap, killSwitchActive, cfg).Some? && Quoted(p, snap) ==>
          ExitTried(d, c.desk, p, Due(p, snap, killSwitchActive, cfg).value))
  {
    hide Sound, Extends, ClosePosition, CheckExit, Mark, QuotesFor, ExitTried;
    var p := d.portfolio[i];
    var marked := Mark(p, snap, cfg.manager);
    var d1 := Remark(d, marked);
    RemarkKeeps(d, i, marked, base, cfg);
    SoundBooks(d, base, cfg);
    ReplacedIsUpdate(d.portfolio, i, marked);
    var signal := CheckExit(marked, snap, cfg.manager, killSwitchActive);
    if signal.Some? {
      CloseIsTried(d1, i, marked, snap, signal.value, cfg, draws, base);
      if Quoted(p, snap) {
        var after := ClosePosition(d1, marked, snap, signal.value, cfg, draws).desk;
        SameTermsSameExit(d1, after, marked, p, signal.value);
        TriedSince(d, d1, after, p, signal.value);
      }
    }
  }

  ghost predicate AllTried(before: Desk, after: Desk, todo: seq<Position>, snap: Snapshot, killSwitchActive: bool,
      cfg: DeskConfig) {
    forall p | p in todo && Quoted(p, snap) && Due(p, snap, killSwitchActive, cfg).Some? ::
      ExitTried(before, after, p, Due(p, snap, killSwitchActive, cfg).value)
  }

  lemma AllTriedLater(a: Desk, b: Desk, c: Desk, todo: seq<Position>, snap: Snapshot, killSwitchActive: bool,
      cfg: DeskConfig)
    requires todo != [] && Extends(a, b) && Extends(b, c) && AllTried(b, c, todo[1..], snap, killSwitchActive, cfg)
    requires AllTried(a, b, todo[..1], snap, killSwitchActive, cfg)
    ensures AllTried(a, c, todo, snap, killSwitchActive, cfg)
  {
    hide Extends, ExitTried, Quoted, Due;
    forall p | p in todo && Quoted(p, snap) && Due(p, snap, killSwitchActive, cfg).Some?
      ensures ExitTried(a, c, p, Due(p, snap, killSwitchActive, cfg).value)
    {
      if p in todo[1..] {
        TriedSince(a, b, c, p, Due(p, snap, killSwitchActive, cfg).value);
      } else {
        assert p in todo[..1];
        TriedPersists(a, b, c, p, Due(p, snap, killSwitchActive, cfg).value);
      }
    }
  }

  lemma {:induction false} WalkTries(d: Desk, todo: seq<Position>, snap: Snapshot, killSwitchActive: bool,
      cfg: DeskConfig, draws: Draws, base: Baseline)
    requires Sound(d, base, cfg) && Pending(d.portfolio, todo) && d.book.connected
    ensures var m := ManageFrom(d, todo, snap, killSwitchActive, cfg, draws);
      !m.raised && AllTried(d, m.desk, todo, snap, killSwitchActive, cfg)
    decreases |todo|
  {
    hide Sound, Extends, ManageOne, ExitTried, Quoted, Due;
    if todo != [] {
      assert todo[0] in todo;
      var i :| 0 <= i < |d.portfolio| && d.portfolio[i] == todo[0];
      SoundBooks(d, base, cfg);
      var c := ManageOne(d, todo[0], snap, killSwitchActive, cfg, draws);
      ManageOneKeeps(d, i, snap, killSwitchActive, cfg, draws, base);
      DueIsTried(d, i, snap, killSwitchActive, cfg, draws, base);
      PendingAfter(d.portfolio, c.desk.portfolio, i, todo);
      WalkTries(c.desk, todo[1..], snap, killSwitchActive, cfg, draws, base);
      ManageKeeps(c.desk, todo[1..], snap, killSwitchActive, cfg, draws, base);
      AllTriedLater(d, c.desk, ManageFrom(c.desk, todo[1..], snap, killSwitchActive, cfg, draws).desk, todo, snap,
                    killSwitchActive, cfg);
    }
  }

  /** A connected cycle sends a closing order for every quoted position whose exit is due, and closes it for
      that reason when the order fills. */
  lemma EveryDueExitIsTried(d: Desk, x: Input, cfg: DeskConfig, base: Baseline)
    requires Sound(d, base, cfg) && cfg.costs.FeePerContract() >= 0.0 && d.book.connected
    ensures AllTried(d, Step(d, x, cfg).desk, OpenOnes(d.portfolio), x.snap, d.switches != map[], cfg)
  {
    hide Sound, Extends, ManageFrom, Decide, ExitTried, Quoted, Due;
    SoundBooks(d, base, cfg);
    OpenOnesArePending(d.portfolio);
    var todo, tripped := OpenOnes(d.portfolio), d.switches != map[];
    var m := ManageFrom(d, todo, x.snap, tripped, cfg, x.draws);
    ManageKeeps(d, todo, x.snap, tripped, cfg, x.draws, base);
    WalkTries(d, todo, x.snap, tripped, cfg, x.draws, base);
    if x.tradeable && x.forecast.Some? {
      var after := Decide(m.desk, x.snap, x.forecast.value, x.optimize, cfg, x.draws).desk;
      DecideKeeps(m.desk, x.snap, x.forecast.value, x.optimize, cfg, x.draws, base);
      forall p | p in todo && Quoted(p, x.snap) && Due(p, x.snap, tripped, cfg).Some?
        ensures ExitTried(d, after, p, Due(p, x.snap, tripped, cfg).value)
      {
        TriedPersists(d, m.desk, after, p, Due(p, x.snap, tripped, cfg).value);
      }
    }
  }

  /** Under an active switch that is every quoted open position, and the reason is the switch. */
  lemma SwitchExitsEveryPosition(d: Desk, x: Input, cfg: DeskConfig, p: Position)
    requires Reachable(d, cfg) && cfg.costs.FeePerContract() >= 0.0 && d.book.connected && d.switches != map[]
    requires p in d.portfolio && p.IsOpen() && Quoted(p, x.snap)
    ensures ExitTried(d, Step(d, x, cfg).desk, p, KillSwitchExit)
  {
    hide Reachable, Step, Sound, ExitTried;
    ReachableIsSound(d, cfg);
    EveryDueExitIsTried(d, x, cfg, NewBaseline(cfg));
    OpenOnesHold(d.portfolio, p);
  }

  lemma {:induction false} OpenOnesHold(ps: seq<Position>, p: Position)
    requires p in ps && p.IsOpen()
    ensures p in OpenOnes(ps)
  {
    if ps[0] != p {
      assert p in ps[1..];
      OpenOnesHold(ps[1..], p);
    }
  }

  // ---------------------------------------------------------------- when a cycle fails

  lemma OfflineClose(d: Desk, p: Position, snap: Snapshot, reason: ExitReason, cfg: DeskConfig, draws: Draws)
    requires !d.book.connected
    ensures var c := ClosePosition(d, p, snap, reason, cfg, draws);
      !c.desk.book.connected && (if Quoted(p, snap) then c.Broken? else c == Kept(d))
  {
    hide Work, BookedPnl, QuotesFor;
  }

  lemma OfflineOne(d: Desk, p: Position, snap: Snapshot, killSwitchActive: bool, cfg: DeskConfig, draws: Draws)
    requires !d.book.connected
    ensures var c := ManageOne(d, p, snap, killSwitchActive, cfg, draws);
      && !c.desk.book.connected
      && (c.Broken? <==> Quoted(p, snap) && Due(p, snap, killSwitchActive, cfg).Some?)
  {
    hide ClosePosition, CheckExit, Mark, QuotesFor;
    var marked := Mark(p, snap, cfg.manager);
    var signal := CheckExit(marked, snap, cfg.manager, killSwitchActive);
    if signal.Some? {
      OfflineClose(Remark(d, marked), marked, snap, signal.value, cfg, draws);
    }
  }

  ghost predicate SomeDue(todo: seq<Position>, snap: Snapshot, killSwitchActive: bool, cfg: DeskConfig) {
    exists p :: p in todo && Quoted(p, snap) && Due(p, snap, killSwitchActive, cfg).Some?
  }

  lemma {:induction false} OfflineWalk(d: Desk, todo: seq<Position>, snap: Snapshot, killSwitchActive: bool,
      cfg: DeskConfig, draws: Draws)
    requires !d.book.connected
    ensures ManageFrom(d, todo, snap, killSwitchActive, cfg, draws).raised
       <==> SomeDue(todo, snap, killSwitchActive, cfg)
    ensures !ManageFrom(d, todo, snap, killSwitchActive, cfg, draws).desk.book.connected
    decreases |todo|
  {
    hide ManageOne, Quoted, Due;
    if todo != [] {
      OfflineOne(d, todo[0], snap, killSwitchActive, cfg, draws);
      var c := ManageOne(d, todo[0], snap, killSwitchActive, cfg, draws);
      if c.Broken? {
        assert todo[0] in todo;
      } else {
        OfflineWalk(c.desk, todo[1..], snap, killSwitchActive, cfg, draws);
        assert forall p :: p in todo <==> p == todo[0] || p in todo[1..];
      }
    }
  }

  lemma ExecuteRaisesWhen(d: Desk, c: Candidate, decision: Decision, snap: Snapshot, cfg: DeskConfig, draws: Draws)
    requires c.maxLoss.Finite?
    ensures Execute(d, c, decision, snap, cfg, draws).raised <==> !d.book.connected || d.nextId in d.book.orders
  {
    hide Work;
  }

  /** Judging and opening never fail: an approval needs a connection, and identifiers are fresh. */
  lemma DecideNeverRaises(d: Desk, snap: Snapshot, f: Forecast, optimize: real -> Option<Candidate>, cfg: DeskConfig,
      draws: Draws, base: Baseline)
    requires Sound(d, base, cfg)
    ensures !Decide(d, snap, f, optimize, cfg, draws).raised
  {
    hide Sound, Extends, Execute, RiskBudget, Judge;
    var c := optimize(RiskBudget(d.portfolio, d.book.equity, f, cfg.risk));
    var v := Evaluation(d, c, snap, f, cfg);
    FreshOrder(d, base, cfg);
    if c.Some? && v.decision.approved {
      ApprovalMeans(c, d.session, d.switches, snap, f, d.portfolio, Observe(d), cfg.risk);
      ExecuteRaisesWhen(Judged(d, v, snap.day), c.value, v.decision, snap, cfg, draws);
    }
  }

  /** A cycle fails exactly when a quoted position is due to exit without a connection, or the market may be
      traded and no forecast could be built. */
  lemma CycleFailsExactlyWhen(d: Desk, x: Input, cfg: DeskConfig, base: Baseline)
    requires Sound(d, base, cfg) && cfg.costs.FeePerContract() >= 0.0
    ensures Step(d, x, cfg).raised <==>
      || (!d.book.connected && SomeDue(OpenOnes(d.portfolio), x.snap, d.switches != map[], cfg))
      || (x.tradeable && x.forecast.None?)
  {
    hide Sound, Extends, ManageFrom, Decide, SomeDue, AllTried;
    var todo, tripped := OpenOnes(d.portfolio), d.switches != map[];
    SoundBooks(d, base, cfg);
    OpenOnesArePending(d.portfolio);
    var m := ManageFrom(d, todo, x.snap, tripped, cfg, x.draws);
    ManageKeeps(d, todo, x.snap, tripped, cfg, x.draws, base);
    if d.book.connected {
      WalkTries(d, todo, x.snap, tripped, cfg, x.draws, base);
    } else {
      OfflineWalk(d, todo, x.snap, tripped, cfg, x.draws);
    }
    if x.forecast.Some? {
      DecideNeverRaises(m.desk, x.snap, x.forecast.value, x.optimize, cfg, x.draws, base);
    }
  }

  // ---------------------------------------------------------------- what a cycle opens and closes

  lemma OpenCountOfUpdate(ps: seq<Position>, i: nat, p: Position)
    requires i < |ps|
    ensures OpenCount(ps[i := p]) == OpenCount(ps) - (if ps[i].IsOpen() then 1 else 0) + (if p.IsOpen() then 1 else 0)
  {
    if i == 0 {
      assert ps[i := p][1..] == ps[1..];
    } else {
      assert ps[i := p][1..] == ps[1..][i - 1 := p];
      OpenCountOfUpdate(ps[1..], i - 1, p);
    }
  }

  lemma OneChanged(ps: seq<Position>, next: seq<Position>, i: nat)
    requires i < |ps| == |next| && forall j | 0 <= j < |ps| && j != i :: next[j] == ps[j]
    ensures next == ps[i := next[i]]
  {
  }

  lemma CloseCounts(d: Desk, i: nat, snap: Snapshot, killSwitchActive: bool, cfg: DeskConfig, draws: Draws,
      base: Baseline)
    requires Sound(d, base, cfg) && i < |d.portfolio| && d.portfolio[i].IsOpen()
    ensures var p := d.portfolio[i]; var c := ManageOne(d, p, snap, killSwitchActive, cfg, draws);
      OpenCount(c.desk.portfolio) + |ExitOf(c, p)| == OpenCount(d.portfolio)
  {
    hide Sound, Extends, ClosePosition, CheckExit, Mark, Remark, OpenCount;
    var p := d.portfolio[i];
    var marked := Mark(p, snap, cfg.manager);
    var d1 := Remark(d, marked);
    RemarkKeeps(d, i, marked, base, cfg);
    ManageOneKeeps(d, i, snap, killSwitchActive, cfg, draws, base);
    var c := ManageOne(d, p, snap, killSwitchActive, cfg, draws);
    var signal := CheckExit(marked, snap, cfg.manager, killSwitchActive);
    if signal.Some? {
      ClosePositionKeeps(d1, i, marked, snap, signal.value, cfg, draws, base);
    }
    assert c.desk.portfolio[i].IsOpen() <==> !c.Closed?;
    OneChanged(d.portfolio, c.desk.portfolio, i);
    OpenCountOfUpdate(d.portfolio, i, c.desk.portfolio[i]);
  }

  lemma {:induction false} WalkCounts(d: Desk, todo: seq<Position>, snap: Snapshot, killSwitchActive: bool,
      cfg: DeskConfig, draws: Draws, base: Baseline)
    requires Sound(d, base, cfg) && Pending(d.portfolio, todo)
    ensures var m := ManageFrom(d, todo, snap, killSwitchActive, cfg, draws);
      m.raised || OpenCount(m.desk.portfolio) + |m.exits| == OpenCount(d.portfolio)
    decreases |todo|
  {
    hide Sound, Extends, ManageOne, OpenCount, ExitOf;
    if todo != [] {
      assert todo[0] in todo;
      var i :| 0 <= i < |d.portfolio| && d.portfolio[i] == todo[0];
      SoundBooks(d, base, cfg);
      var c := ManageOne(d, todo[0], snap, killSwitchActive, cfg, draws);
      ManageOneKeeps(d, i, snap, killSwitchActive, cfg, draws, base);
      CloseCounts(d, i, snap, killSwitchActive, cfg, draws, base);
      if !c.Broken? {
        PendingAfter(d.portfolio, c.desk.portfolio, i, todo);
        WalkCounts(c.desk, todo[1..], snap, killSwitchActive, cfg, draws, base);
      }
    }
  }

  lemma {:induction false} OpenCountOfNew(ps: seq<Position>, p: Position)
    requires p.IsOpen()
    ensures OpenCount(ps + [p]) == OpenCount(ps) + 1
  {
    if ps == [] {
      assert (ps + [p])[1..] == [];
    } else {
      assert (ps + [p])[1..] == ps[1..] + [p];
      OpenCountOfNew(ps[1..], p);
    }
  }

  function One(fill: Option<Fill>): nat { if fill.Some? then 1 else 0 }

  lemma ExecuteOpens(d: Desk, c: Candidate, decision: Decision, snap: Snapshot, cfg: DeskConfig, draws: Draws)
    requires c.maxLoss.Finite?
    ensures var x := Execute(d, c, decision, snap, cfg, draws);
      && |x.desk.portfolio| == |d.portfolio| + One(x.fill)
      && OpenCount(x.desk.portfolio) == OpenCount(d.portfolio) + One(x.fill)
      && (x.raised ==> x.fill.None?)
  {
    hide Work, OpenCount;
    var x := Execute(d, c, decision, snap, cfg, draws);
    if x.fill.Some? {
      OpenCountOfNew(d.portfolio, x.desk.portfolio[|d.portfolio|]);
    }
  }

  lemma DecideOpens(d: Desk, snap: Snapshot, f: Forecast, optimize: real -> Option<Candidate>, cfg: DeskConfig,
      draws: Draws)
    ensures var x := Decide(d, snap, f, optimize, cfg, draws);
      && |x.desk.portfolio| == |d.portfolio| + One(x.fill)
      && OpenCount(x.desk.portfolio) == OpenCount(d.portfolio) + One(x.fill)
      && (x.raised ==> x.fill.None?)
  {
    hide Execute, RiskBudget, Judge, OpenCount;
    var c := optimize(RiskBudget(d.portfolio, d.book.equity, f, cfg.risk));
    var v := Evaluation(d, c, snap, f, cfg);
    if c.Some? && v.decision.approved {
      ApprovalMeans(c, d.session, d.switches, snap, f, d.portfolio, Observe(d), cfg.risk);
      ExecuteOpens(Judged(d, v, snap.day), c.value, v.decision, snap, cfg, draws);
    }
  }

  /** A cycle adds one position exactly when it reports a fill, and unless it failed the open ones change by that
      fill less the exits it reports. */
  lemma CycleAddsUp(d: Desk, x: Input, cfg: DeskConfig, base: Baseline)
    requires Sound(d, base, cfg)
    ensures var next := Step(d, x, cfg);
      && |next.desk.portfolio| == |d.portfolio| + One(next.fill)
      && (next.raised ==> next.fill.None?)
      && (!next.raised ==>
          OpenCount(next.desk.portfolio) + |next.exits| == OpenCount(d.portfolio) + One(next.fill))
  {
    hide Sound, Extends, ManageFrom, Decide, OpenCount;
    var todo, tripped := OpenOnes(d.portfolio), d.switches != map[];
    SoundBooks(d, base, cfg);
    OpenOnesArePending(d.portfolio);
    var m := ManageFrom(d, todo, x.snap, tripped, cfg, x.draws);
    ManageKeeps(d, todo, x.snap, tripped, cfg, x.draws, base);
    WalkCounts(d, todo, x.snap, tripped, cfg, x.draws, base);
    WalkFillsNothing(d, todo, x.snap, tripped, cfg, x.draws);
    if x.forecast.Some? {
      DecideOpens(m.desk, x.snap, x.forecast.value, x.optimize, cfg, x.draws);
    }
  }

  lemma {:induction false} WalkFillsNothing(d: Desk, todo: seq<Position>, snap: Snapshot, killSwitchActive: bool,
      cfg: DeskConfig, draws: Draws)
    ensures ManageFrom(d, todo, snap, killSwitchActive, cfg, draws).fill.None?
    decreases |todo|
  {
    hide ManageOne;
    if todo != [] {
      WalkFillsNothing(ManageOne(d, todo[0], snap, killSwitchActive, cfg, draws).desk, todo[1..], snap,
                       killSwitchActive, cfg, draws);
    }
  }

  // ---------------------------------------------------------------- when a flatten fails

  lemma {:induction false} OnlineFlatten(d: Desk, todo: seq<Position>, snap: Snapshot, reason: ExitReason,
      cfg: DeskConfig, draws: Draws, base: Baseline)
    requires Sound(d, base, cfg) && Pending(d.portfolio, todo) && d.book.connected
    ensures !FlattenFrom(d, todo, snap, reason, cfg, draws).raised
    decreases |todo|
  {
    hide Sound, Extends, ClosePosition, Mark;
    if todo != [] {
      assert todo[0] in todo;
      var i :| 0 <= i < |d.portfolio| && d.portfolio[i] == todo[0];
      SoundBooks(d, base, cfg);
      var marked := Mark(todo[0], snap, cfg.manager);
      var c := ClosePosition(d, marked, snap, reason, cfg, draws);
      ClosePositionKeeps(d, i, marked, snap, reason, cfg, draws, base);
      CloseIsTried(d, i, marked, snap, reason, cfg, draws, base);
      PendingAfter(d.portfolio, c.desk.portfolio, i, todo);
      OnlineFlatten(c.desk, todo[1..], snap, reason, cfg, draws, base);
    }
  }

  lemma {:induction false} OfflineFlatten(d: Desk, todo: seq<Position>, snap: Snapshot, reason: ExitReason,
      cfg: DeskConfig, draws: Draws)
    requires !d.book.connected
    ensures FlattenFrom(d, todo, snap, reason, cfg, draws).raised <==> exists p :: p in todo && Quoted(p, snap)
    decreases |todo|
  {
    hide ClosePosition, Mark, Quoted;
    if todo != [] {
      var marked := Mark(todo[0], snap, cfg.manager);
      OfflineClose(d, marked, snap, reason, cfg, draws);
      assert Quoted(marked, snap) <==> Quoted(todo[0], snap) by { SameQuotes(marked, todo[0], snap); }
      assert todo[0] in todo;
      if !Quoted(todo[0], snap) {
        OfflineFlatten(d, todo[1..], snap, reason, cfg, draws);
        assert forall p :: p in todo <==> p == todo[0] || p in todo[1..];
      }
    }
  }

  lemma SameQuotes(p: Position, q: Position, snap: Snapshot)
    requires p.strategy == q.strategy
    ensures Quoted(p, snap) <==> Quoted(q, snap)
  {
  }

  /** A flatten fails exactly when the broker is away and some open position is quoted. */
  lemma FlattenFailsExactlyWhen(d: Desk, snap: Snapshot, reason: ExitReason, cfg: DeskConfig, draws: Draws,
      base: Baseline)
    requires Sound(d, base, cfg)
    ensures Flatten(d, snap, reason, cfg, draws).raised <==>
      !d.book.connected && exists p :: p in d.portfolio && p.IsOpen() && Quoted(p, snap)
  {
    hide Sound, FlattenFrom, Quoted;
    SoundBooks(d, base, cfg);
    OpenOnesArePending(d.portfolio);
    if d.book.connected {
      OnlineFlatten(d, OpenOnes(d.portfolio), snap, reason, cfg, draws, base);
    } else {
      OfflineFlatten(d, OpenOnes(d.portfolio), snap, reason, cfg, draws);
      forall p | p in d.portfolio && p.IsOpen() ensures p in OpenOnes(d.portfolio) { OpenOnesHold(d.portfolio, p); }
    }
  }

  // ---------------------------------------------------------------- every run

  /** The invariant holds after every run, and history is only ever added to. */
  lemma {:induction false} RunKeeps(d: Desk, events: seq<Event>, cfg: DeskConfig, base: Baseline)
    requires Sound(d, base, cfg) && cfg.costs.FeePerContract() >= 0.0
    ensures Sound(Run(d, events, cfg), base, cfg) && Extends(d, Run(d, events, cfg))
    decreases |events|
  {
    hide Sound, Extends, Next;
    if events == [] {
      ExtendsItself(d);
    } else {
      var before := Run(d, events[..|events| - 1], cfg);
      RunKeeps(d, events[..|events| - 1], cfg, base);
      NextKeeps(before, events[|events| - 1], cfg, base);
      ExtendsIsTransitive(d, before, Run(d, events, cfg));
    }
  }

  function NewBaseline(cfg: DeskConfig): Baseline { Baseline(cfg.broker.startingEquity, 0.0, FRESH_SESSION) }

  lemma NewDeskIsSound(cfg: DeskConfig)
    ensures Sound(NewDesk(cfg), NewBaseline(cfg), cfg)
  {
  }

  /** A desk some run can reach from a new one. */
  ghost predicate Reachable(d: Desk, cfg: DeskConfig) {
    exists events: seq<Event> :: d == Run(NewDesk(cfg), events, cfg)
  }

  lemma ReachableIsSound(d: Desk, cfg: DeskConfig)
    requires Reachable(d, cfg) && cfg.costs.FeePerContract() >= 0.0
    ensures Sound(d, NewBaseline(cfg), cfg)
  {
    hide Sound, Run;
    var events: seq<Event> :| d == Run(NewDesk(cfg), events, cfg);
    NewDeskIsSound(cfg);
    RunKeeps(NewDesk(cfg), events, cfg, NewBaseline(cfg));
  }

  lemma SoundIsReconciled(d: Desk, base: Baseline, cfg: DeskConfig)
    requires Sound(d, base, cfg)
    ensures Observe(d).reconciled && UniqueIds(d.portfolio)
  {
    MatchedBooksAgree(d.portfolio, d.book.positions);
    forall k: LegKey ensures NetQuantity(OpenOnes(d.portfolio), k) == NetQuantity(OpenOnes(d.book.positions), k) {
      NetIgnoresClosed(d.portfolio, k);
      NetIgnoresClosed(d.book.positions, k);
    }
  }

  /** Reconciliation succeeds in every reachable state, and position identifiers are distinct. */
  lemma BooksAlwaysReconcile(d: Desk, cfg: DeskConfig)
    requires Reachable(d, cfg) && cfg.costs.FeePerContract() >= 0.0
    ensures Observe(d).reconciled && UniqueIds(d.portfolio)
  {
    hide Reachable, Sound;
    ReachableIsSound(d, cfg);
    SoundIsReconciled(d, NewBaseline(cfg), cfg);
  }

  /** Legs, contracts, entry price, exit plan and maximum loss never change after entry, and a closed
      position is never touched again. */
  lemma TermsAreImmutable(d: Desk, events: seq<Event>, cfg: DeskConfig)
    requires Reachable(d, cfg) && cfg.costs.FeePerContract() >= 0.0
    ensures Evolves(d.portfolio, Run(d, events, cfg).portfolio)
  {
    hide Reachable, Run, Sound;
    ReachableIsSound(d, cfg);
    RunKeeps(d, events, cfg, NewBaseline(cfg));
  }

  lemma SoundIsCapped(d: Desk, base: Baseline, cfg: DeskConfig)
    requires Sound(d, base, cfg)
    requires cfg.risk.portfolio.maxOpenStrategies >= 0 && cfg.risk.portfolio.maxTotalOpenRisk >= 0.0
    ensures OpenCount(d.portfolio) <= cfg.risk.portfolio.maxOpenStrategies
    ensures Total(OpenLoss, d.portfolio) <= cfg.risk.portfolio.maxTotalOpenRisk
    ensures TotalOpenRisk(d.portfolio) <= cfg.risk.portfolio.maxTotalOpenRisk
         || exists p ::
           p in d.portfolio && p.IsOpen()
           && TotalOpenRisk(d.portfolio) <= cfg.risk.portfolio.maxTotalOpenRisk + p.entryCommission
  {
    hide Total, OpenCount;
    OpenCountIsTotal(d.portfolio);
    TotalOpenRiskIsTotal(d.portfolio);
  }

  lemma SoundExpirations(d: Desk, base: Baseline, cfg: DeskConfig, expiry: Instant)
    requires Sound(d, base, cfg)
    ensures WithinOneFee(NearRisk(expiry), d.portfolio, ExpirationCap(cfg.risk))
    ensures forall p | p in d.portfolio :: GoodTerms(p)
  {
  }

  /** In every reachable state the open risk counted under an expiration is what expires there first and
      what has a later leg there. The first exceeds the same-expiration limit by no more than the slack of
      further contracts and the entry commission of one open position; the second, which no check looks
      at, is zero when no open position spans two expirations. */
  lemma SameExpirationIsCapped(d: Desk, cfg: DeskConfig, expiry: Instant)
    requires Reachable(d, cfg) && cfg.costs.FeePerContract() >= 0.0
    ensures Total(NearRisk(expiry), d.portfolio) <= ExpirationCap(cfg.risk)
         || exists p :: p in d.portfolio && p.IsOpen()
              && Total(NearRisk(expiry), d.portfolio) <= ExpirationCap(cfg.risk) + p.entryCommission
    ensures RiskForExpiration(d.portfolio, expiry)
         == Total(NearRisk(expiry), d.portfolio) + Total(LaterLegRisk(expiry), d.portfolio)
    ensures RiskForExpiration(d.portfolio, expiry) <= TotalOpenRisk(d.portfolio)
    ensures (forall p | p in d.portfolio && p.IsOpen() :: !IsMultiExpiry(p.strategy)) ==>
      Total(LaterLegRisk(expiry), d.portfolio) == 0.0
  {
    hide Reachable, Sound, Total, OpenRisk, ExpirationCap, RiskForExpiration, TotalOpenRisk, IsMultiExpiry, NearRisk,
      LaterLegRisk;
    ReachableIsSound(d, cfg);
    SoundExpirations(d, NewBaseline(cfg), cfg, expiry);
    forall p | p in d.portfolio ensures OpenRisk(p) >= 0.0 {
      OpenRiskIsPositive(p);
    }
    ExpirationRiskSplits(d.portfolio, expiry);
    if Total(NearRisk(expiry), d.portfolio) > ExpirationCap(cfg.risk) {
      var i :| 0 <= i < |d.portfolio| && Excuses(NearRisk(expiry), d.portfolio, i, ExpirationCap(cfg.risk));
      assert d.portfolio[i] in d.portfolio;
    }
  }

  /** What a fill under an approval can do to each exposure limit: the slot count holds, open risk stays
      within both portfolio caps but for the fill's commission, the position within both trade caps, and
      its nearest expiration within its limit but for that commission and the further contracts. */
  lemma ApprovedFillFits(d: Desk, c: Candidate, snap: Snapshot, f: Forecast, cfg: DeskConfig, p: Position)
    requires Evaluation(d, Some(c), snap, f, cfg).decision.approved
    requires p.IsOpen() && 1 <= p.contracts <= Evaluation(d, Some(c), snap, f, cfg).decision.maxContracts
    requires p.strategy == c.strategy && c.maxLoss == Finite(p.maxLossPerContract)
    ensures var ps, limits := d.portfolio + [p], cfg.risk.portfolio;
      && OpenCount(ps) <= limits.maxOpenStrategies
      && TotalOpenRisk(ps) <= Min(limits.maxTotalOpenRisk, d.book.equity * limits.maxTotalRiskFraction)
        + p.entryCommission
      && OpenLoss(p) <= cfg.risk.trade.maxDollarRisk && OpenLoss(p) <= AccountCap(d.book.equity, cfg.risk.trade)
      && RiskForExpiration(ps, NearExpiry(c.strategy))
           <= limits.maxSameExpirationRisk + (OpenLoss(p) - p.maxLossPerContract) + p.entryCommission
  {
    hide Judge, OpenCount, BooksAgree, TotalOpenRisk, RiskForExpiration, AccountCap, NearExpiry, AvailableRisk,
      OpenLoss, Position.TotalMaxLoss;
    var v := Evaluation(d, Some(c), snap, f, cfg);
    ApprovalMeans(Some(c), d.session, d.switches, snap, f, d.portfolio, Observe(d), cfg.risk);
    GrantCovers(p, v.decision.maxContracts);
    hide Evaluation;
    GrantFitsBothCaps(d.portfolio, d.book.equity, OpenLoss(p), cfg.risk);
    NearExpiryIsALeg(p.strategy, NearExpiry(p.strategy));
    RiskForExpirationOfAppend(d.portfolio, p, NearExpiry(p.strategy));
    AppendedTotals(d.portfolio, p);
  }

  lemma GrantFitsBothCaps(ps: seq<Position>, equity: real, need: real, cfg: RiskConfig)
    requires 0.0 < need <= AvailableRisk(ps, equity, cfg)
    ensures TotalOpenRisk(ps) + need <= Min(cfg.portfolio.maxTotalOpenRisk, equity * cfg.portfolio.maxTotalRiskFraction)
  {
    hide TotalOpenRisk;
  }

  lemma AppendedTotals(ps: seq<Position>, p: Position)
    requires p.IsOpen()
    ensures OpenCount(ps + [p]) == OpenCount(ps) + 1
    ensures TotalOpenRisk(ps + [p]) == TotalOpenRisk(ps) + p.TotalMaxLoss()
  {
    assert OpenUnit(p) == 1.0 && OpenRisk(p) == p.TotalMaxLoss();
    hide Total, OpenCount, TotalOpenRisk, OpenUnit, OpenRisk, Position.TotalMaxLoss;
    OpenCountIsTotal(ps);
    OpenCountIsTotal(ps + [p]);
    TotalOpenRiskIsTotal(ps);
    TotalOpenRiskIsTotal(ps + [p]);
    TotalOfAppend(OpenUnit, ps, p);
    TotalOfAppend(OpenRisk, ps, p);
  }

  /** The open count and the open risk stay within the portfolio limits; with entry costs the excess
      is at most the entry commission of one open position. */
  lemma ExposureIsCapped(d: Desk, cfg: DeskConfig)
    requires Reachable(d, cfg) && cfg.costs.FeePerContract() >= 0.0
    requires cfg.risk.portfolio.maxOpenStrategies >= 0 && cfg.risk.portfolio.maxTotalOpenRisk >= 0.0
    ensures OpenCount(d.portfolio) <= cfg.risk.portfolio.maxOpenStrategies
    ensures Total(OpenLoss, d.portfolio) <= cfg.risk.portfolio.maxTotalOpenRisk
    ensures TotalOpenRisk(d.portfolio) <= cfg.risk.portfolio.maxTotalOpenRisk
         || exists p ::
           p in d.portfolio && p.IsOpen()
           && TotalOpenRisk(d.portfolio) <= cfg.risk.portfolio.maxTotalOpenRisk + p.entryCommission
  {
    hide Reachable, Sound;
    ReachableIsSound(d, cfg);
    SoundIsCapped(d, NewBaseline(cfg), cfg);
  }

  /** Broker equity is the starting equity, less the commissions of opening fills, plus the realised
      results of closed positions; those commissions are exactly the positions' entry commissions,
      which realised results subtract once more. */
  lemma EquityIsAccountedFor(d: Desk, cfg: DeskConfig)
    requires Reachable(d, cfg) && cfg.costs.FeePerContract() >= 0.0
    ensures d.book.equity == cfg.broker.startingEquity - ChargedToOpen(d.book) + Total(ClosedPnl, d.book.positions)
    ensures ChargedToOpen(d.book) == Total(EntryFee, d.book.positions)
    ensures PnlSum(TradesOf(d.log)) == Total(ClosedPnl, d.book.positions)
  {
    hide Reachable, Total, OpenCommissions, ReplayFrom, TradesOf, PnlSum;
    ReachableIsSound(d, cfg);
    TotalsAgree(ClosedPnl, d.portfolio, d.book.positions);
    TotalsAgree(EntryFee, d.portfolio, d.book.positions);
  }

  /** The session counters mean what they say: the daily totals since the last change of day, the
      trailing run of losses, and the greatest equity seen at rolls and trades. */
  lemma SessionCountersAreTrue(d: Desk, cfg: DeskConfig)
    requires Reachable(d, cfg) && cfg.costs.FeePerContract() >= 0.0
    ensures d.session.realizedPnl == PnlSum(TradesOf(d.log[LastRoll(d.log)..]))
    ensures d.session.tradesToday == |TradesOf(d.log[LastRoll(d.log)..])|
    ensures TrailingLosses(TradesOf(d.log), d.session.consecutiveLosses)
    ensures d.session.slippage == Recent(SlipsOf(d.log), 200)
    ensures Outcomes(SlipsOf(d.log)) == SlipsOnBook(d.book)
    ensures forall i | 0 <= i < |d.log| && Observes(d.log, i) :: d.log[i].equity <= d.session.peakEquity
    ensures d.session.peakEquity == 0.0 || exists i ::
      0 <= i < |d.log| && Observes(d.log, i) && d.log[i].equity == d.session.peakEquity
  {
    hide Reachable, ReplayFrom, TradesOf, PnlSum, Observes, LastRoll, TrailingLosses;
    ReachableIsSound(d, cfg);
    DailyTotalsAreSinceLastRoll(d.log);
    ConsecutiveLossesAreTrailing(d.log);
    PeakIsGreatestObserved(d.log);
    SamplesAreRecent(d.log);
  }

  /** Every order's filled contracts are the sum of its fills, within the order; when the poll limit
      exceeds the reprice budget each is terminal or has filled something. */
  lemma OrdersAreSettled(d: Desk, cfg: DeskConfig, id: Id)
    requires Reachable(d, cfg) && cfg.costs.FeePerContract() >= 0.0 && id in d.book.orders
    ensures var o := d.book.orders[id];
      && FilledUnder(d.book.fills, id) == o.filled <= o.contracts
      && (cfg.maxPolls > cfg.broker.maxRepriceAttempts ==> o.IsTerminal() || o.filled >= 1)
  {
    hide Reachable;
    ReachableIsSound(d, cfg);
  }

  // ---------------------------------------------------------------- kill switches

  /** No operator reset occurs. */
  predicate NoReset(events: seq<Event>) { forall i | 0 <= i < |events| :: !events[i].ResetSwitch? }

  /** Once any switch is active no run without a reset clears it or opens a position. */
  lemma {:induction false} SwitchesHold(d: Desk, events: seq<Event>, cfg: DeskConfig, base: Baseline)
    requires Sound(d, base, cfg) && cfg.costs.FeePerContract() >= 0.0 && NoReset(events)
    ensures Latched(d.switches, Run(d, events, cfg).switches)
    ensures d.switches != map[] ==> |Run(d, events, cfg).portfolio| == |d.portfolio|
    decreases |events|
  {
    hide Sound, Extends, Next;
    if events != [] {
      var front := events[..|events| - 1];
      var before := Run(d, front, cfg);
      RunKeeps(d, front, cfg, base);
      SwitchesHold(d, front, cfg, base);
      NextKeeps(before, events[|events| - 1], cfg, base);
      if d.switches != map[] {
        var r :| r in d.switches;
        assert r in before.switches;
      }
    }
  }

  // ---------------------------------------------------------------- what stops trading

  /** The last `n` results are losses. */
  ghost predicate LosingStreak(results: seq<real>, n: int) {
    n <= |results| && forall i | 0 <= i < |results| && |results| - n <= i :: results[i] < 0.0
  }

  /** The session's history once a cycle has rolled it to its day. */
  function RolledLog(d: Desk, snap: Snapshot): seq<SessionEvent> { d.log + [Roll(snap.day, d.book.equity)] }

  /** What trips a switch: the state of the data, the broker and the models, the results of the day and
      the last ones, equity against its greatest value, and the fills against what was expected. */
  ghost predicate Calls(r: SwitchReason, d: Desk, snap: Snapshot, f: Forecast, cfg: RiskConfig) {
    var log := RolledLog(d, snap);
    match r
    case DataQuality => snap.dataQuality < cfg.trade.minDataQuality
    case BrokerState => !d.book.connected
    case ModelDisagreement => f.modelDisagreement > cfg.trade.maxModelDisagreement
    case Calibration => f.calibration < cfg.minCalibration
    case DailyLoss =>
      var today := PnlSum(TradesOf(log[LastRoll(log)..]));
      today <= -cfg.session.dailyLossLimit || today <= -(d.book.equity * cfg.session.dailyLossFraction)
    case ConsecutiveLosses => LosingStreak(TradesOf(log), cfg.session.maxConsecutiveLosses)
    case Drawdown => FellTooFar(Replay(log).peakEquity, d.book.equity, cfg.session.maxDrawdownFraction)
    case Slippage => SlippedTooFar(Recent(SlipsOf(log), 200), cfg.maxSlippageRatio)
    case _ => false
  }

  lemma StreakIsCounted(results: seq<real>, counted: nat, n: int)
    requires TrailingLosses(results, counted)
    ensures counted >= n <==> LosingStreak(results, n)
  {
    if counted < |results| {
      var before := |results| - counted - 1;
      assert results[before] >= 0.0;
    }
  }

  lemma RolledCounters(d: Desk, snap: Snapshot, cfg: DeskConfig)
    requires Sound(d, NewBaseline(cfg), cfg)
    ensures var log, rolled := RolledLog(d, snap), d.session.RolledTo(snap.day, d.book.equity);
      && rolled.realizedPnl == PnlSum(TradesOf(log[LastRoll(log)..]))
      && TrailingLosses(TradesOf(log), rolled.consecutiveLosses)
      && rolled.peakEquity == Replay(log).peakEquity
      && rolled.slippage == Recent(SlipsOf(log), 200)
  {
    hide ReplayFrom, TradesOf, PnlSum, LastRoll, TrailingLosses;
    RollExtendsLog(FRESH_SESSION, d.session, d.log, snap.day, d.book.equity);
    DailyTotalsAreSinceLastRoll(RolledLog(d, snap));
    ConsecutiveLossesAreTrailing(RolledLog(d, snap));
    SamplesAreRecent(RolledLog(d, snap));
  }

  /** In every state a run can decide in, the switches active after the evaluation are exactly those
      active before it and those its history, its data, its broker or its models call for. */
  lemma SwitchesTripExactlyWhen(d: Desk, c: Option<Candidate>, snap: Snapshot, f: Forecast, cfg: DeskConfig)
    requires Sound(d, NewBaseline(cfg), cfg)
    ensures forall r :: r in Evaluation(d, c, snap, f, cfg).switches <==>
      r in d.switches || Calls(r, d, snap, f, cfg.risk)
  {
    hide Sound, ReplayFrom, TradesOf, PnlSum, LastRoll, TrailingLosses, LosingStreak, HealthSwitches, LossSwitches,
      SizePosition, CandidateVetoes, PortfolioVetoes, SessionVetoes, EnvironmentVetoes, BrokerVetoes, AvailableRisk,
      FellTooFar, SlippedTooFar, RolledLog, SessionRecord.RolledTo, BooksAgree;
    var rolled := d.session.RolledTo(snap.day, d.book.equity);
    RolledCounters(d, snap, cfg);
    StreakIsCounted(TradesOf(RolledLog(d, snap)), rolled.consecutiveLosses, cfg.risk.session.maxConsecutiveLosses);
    SoundIsReconciled(d, NewBaseline(cfg), cfg);
    HealthTrips(d.switches, snap, f, Observe(d), cfg.risk);
    LossesTrip(HealthSwitches(d.switches, snap, f, Observe(d), cfg.risk), rolled, d.book.equity, cfg.risk);
  }

  /** What stops a run keeps it stopped: when a cycle comes to decide and anything calls for a switch,
      it opens nothing, and nothing after it does until an operator resets a switch. */
  lemma CalledSwitchLocksOut(d: Desk, x: Input, r: SwitchReason, events: seq<Event>, cfg: DeskConfig)
    requires Reachable(d, cfg) && cfg.costs.FeePerContract() >= 0.0 && NoReset(events)
    requires x.tradeable && x.forecast.Some?
    requires !ManageFrom(d, OpenOnes(d.portfolio), x.snap, d.switches != map[], cfg, x.draws).raised
    requires Calls(r, ManageFrom(d, OpenOnes(d.portfolio), x.snap, d.switches != map[], cfg, x.draws).desk, x.snap,
                   x.forecast.value, cfg.risk)
    ensures r in Next(d, Cycle(x), cfg).switches
    ensures r in Run(Next(d, Cycle(x), cfg), events, cfg).switches
    ensures |Run(Next(d, Cycle(x), cfg), events, cfg).portfolio| == |d.portfolio|
  {
    hide Reachable, Sound, Extends, Run, ManageFrom, Calls, Judge, RiskBudget;
    var base, todo, tripped, f := NewBaseline(cfg), OpenOnes(d.portfolio), d.switches != map[], x.forecast.value;
    ReachableIsSound(d, cfg);
    SoundBooks(d, base, cfg);
    OpenOnesArePending(d.portfolio);
    ManageKeeps(d, todo, x.snap, tripped, cfg, x.draws, base);
    var m := ManageFrom(d, todo, x.snap, tripped, cfg, x.draws).desk;
    var c := x.optimize(RiskBudget(m.portfolio, m.book.equity, f, cfg.risk));
    SwitchesTripExactlyWhen(m, c, x.snap, f, cfg);
    SwitchedIsRefused(m, c, x.snap, f, cfg);
    NextKeeps(d, Cycle(x), cfg, base);
    SwitchesHold(Next(d, Cycle(x), cfg), events, cfg, base);
  }

  lemma SwitchedIsRefused(d: Desk, c: Option<Candidate>, snap: Snapshot, f: Forecast, cfg: DeskConfig)
    ensures Evaluation(d, c, snap, f, cfg).decision.approved ==> Evaluation(d, c, snap, f, cfg).switches == map[]
  {
    hide SwitchesAfter, SizePosition, CandidateVetoes, PortfolioVetoes, SessionVetoes, EnvironmentVetoes, BrokerVetoes,
      AvailableRisk, BooksAgree;
  }
}
