/** One decision cycle as a function on the desk: manage exits, judge, execute. */
module Trading {
  import opened Options
  import opened Market
  import opened Costs
  import opened Positions
  import opened Broker
  import opened Risk

  datatype DeskConfig = DeskConfig(costs: CostModel, broker: BrokerConfig, manager: ManagerConfig, risk: RiskConfig,
      maxPolls: nat)

  /** Everything the pipeline mutates. `log` is the history of what the session was told; `nextId` is
      the next identifier never used before. */
  datatype Desk = Desk(book: Book, portfolio: seq<Position>, session: SessionRecord, switches: Switches, nextId: Id,
                       log: seq<SessionEvent>)

  /** Outcome of the k-th random draw for an order. */
  type Draws = (Id, nat) -> bool

  function DrawsFor(draws: Draws, id: Id): nat -> bool { (k: nat) => draws(id, k) }

  /** `forecast` is none when building features, forecasting or ranking raises. */
  datatype Input = Input(snap: Snapshot, tradeable: bool, forecast: Option<Forecast>,
      optimize: real -> Option<Candidate>, draws: Draws)

  datatype Outcome = Outcome(desk: Desk, exits: seq<Id>, fill: Option<Fill>, raised: bool)

  // ---------------------------------------------------------------- working one order

  /** Submit and poll until a fill, a terminal status or the poll limit. */
  function Work(o: Order, snap: Snapshot, cfg: DeskConfig, draws: Draws): Polled {
    PollLoop(o.(status := Working), cfg.broker, cfg.costs, snap.chain, DrawsFor(draws, o.id), 0, cfg.maxPolls)
  }

  function AfterWork(d: Desk, o: Order, r: Polled): Desk {
    d.(book := AfterPoll(Submitted(d.book, o), r), nextId := d.nextId + 1)
  }

  // ---------------------------------------------------------------- closing

  function CloseOrder(p: Position, price: real, id: Id): Order {
    Order(id, StructureRecord(p.strategy.family, InvertedLegs(p.strategy.legs)), p.contracts, -price, CloseIntent,
          PendingNew, 0, 0)
  }

  datatype Closing = Kept(desk: Desk) | Closed(desk: Desk) | Broken(desk: Desk)

  /** Replace, settle and record a closed position. */
  function Settle(d: Desk, p: Position): Desk {
    var book := Settled(d.book, p, p.realizedPnl);
    d.(book := book, portfolio := Replaced(d.portfolio, p.id, p),
       session := d.session.WithTrade(p.realizedPnl, book.equity),
       log := d.log + [Trade(p.realizedPnl, book.equity)])
  }

  /** The profit booked for a close: the order's final limit for the whole position, less both commissions. */
  function BookedPnl(p: Position, r: Polled): real
    requires r.fill.Some?
  {
    RealizedPnl(p, -r.order.limitPrice) - r.fill.value.commission
  }

  function ClosePosition(d: Desk, p: Position, snap: Snapshot, reason: ExitReason, cfg: DeskConfig,
      draws: Draws): Closing {
    var price := ClosePrice(p, snap, cfg.manager);
    if price.None? then Kept(d)
    else if !CanSubmit(d.book, CloseOrder(p, price.value, d.nextId)) then Broken(d.(nextId := d.nextId + 1))
    else
      var o := CloseOrder(p, price.value, d.nextId);
      var r := Work(o, snap, cfg, draws);
      var worked := AfterWork(d, o, r);
      if r.fill.None? then Kept(worked)
      else Closed(Settle(worked, p.Closed(snap.timestamp, BookedPnl(p, r), reason)))
  }

  function Remark(d: Desk, p: Position): Desk { d.(portfolio := Replaced(d.portfolio, p.id, p)) }

  /** Mark one position and close it if an exit rule fires. */
  function ManageOne(d: Desk, p: Position, snap: Snapshot, killSwitchActive: bool, cfg: DeskConfig,
      draws: Draws): Closing {
    var marked := Mark(p, snap, cfg.manager);
    var signal := CheckExit(marked, snap, cfg.manager, killSwitchActive);
    if signal.None? then Kept(Remark(d, marked))
    else ClosePosition(Remark(d, marked), marked, snap, signal.value, cfg, draws)
  }

  function ExitOf(c: Closing, p: Position): seq<Id> { if c.Closed? then [p.id] else [] }

  /** Manage each position of `todo`. A broker error stops the walk. */
  function ManageFrom(d: Desk, todo: seq<Position>, snap: Snapshot, killSwitchActive: bool, cfg: DeskConfig,
      draws: Draws): Outcome
    decreases |todo|
  {
    if todo == [] then Outcome(d, [], None, false)
    else
      var c := ManageOne(d, todo[0], snap, killSwitchActive, cfg, draws);
      if c.Broken? then Outcome(c.desk, [], None, true)
      else Prefixed(ExitOf(c, todo[0]), ManageFrom(c.desk, todo[1..], snap, killSwitchActive, cfg, draws))
  }

  function Prefixed(exits: seq<Id>, x: Outcome): Outcome { x.(exits := exits + x.exits) }

  /** Close every position of `todo`, whatever the exit rules say. */
  function FlattenFrom(d: Desk, todo: seq<Position>, snap: Snapshot, reason: ExitReason, cfg: DeskConfig,
      draws: Draws): Outcome
    decreases |todo|
  {
    if todo == [] then Outcome(d, [], None, false)
    else
      var c := ClosePosition(d, Mark(todo[0], snap, cfg.manager), snap, reason, cfg, draws);
      if c.Broken? then Outcome(c.desk, [], None, true)
      else Prefixed(ExitOf(c, todo[0]), FlattenFrom(c.desk, todo[1..], snap, reason, cfg, draws))
  }

  // ---------------------------------------------------------------- opening

  function OpenOrder(c: Candidate, decision: Decision, id: Id): Order {
    Order(id, c.strategy, decision.maxContracts,
          if decision.priceLimit != 0.0 then decision.priceLimit else c.entryPrice,
          OpenIntent, PendingNew, 0, 0)
  }

  function NewPosition(c: Candidate, fill: Fill, id: Id, at: Instant): Position
    requires c.maxLoss.Finite?
  {
    Position(id, at, c.strategy, fill.contracts, fill.price, c.maxLoss.value, c.maxProfit, c.exitPlan, fill.commission,
             fill.price, Some(at), 0.0, None, None)
  }

  function ExpectedSlippage(c: Candidate, contracts: int): real { c.expectedSlippage * contracts as real }

  function Opened(d: Desk, p: Position): Desk {
    d.(book := Registered(d.book, p), portfolio := d.portfolio + [p], nextId := d.nextId + 1)
  }

  /** Record the slippage of an opening fill. */
  function Recorded(d: Desk, expected: real, realized: real): Desk {
    d.(session := d.session.WithSlippage(expected, realized), log := d.log + [Slip(expected, realized)])
  }

  function Execute(d: Desk, c: Candidate, decision: Decision, snap: Snapshot, cfg: DeskConfig, draws: Draws): Outcome
    requires c.maxLoss.Finite?
  {
    var o := OpenOrder(c, decision, d.nextId);
    if !CanSubmit(d.book, o) then Outcome(d.(nextId := d.nextId + 1), [], None, true)
    else
      var r := Work(o, snap, cfg, draws);
      var worked := AfterWork(d, o, r);
      if r.fill.None? then Outcome(Withdrawn(worked, o.id), [], None, false)
      else
        var fill := r.fill.value;
        var entered := Opened(worked, NewPosition(c, fill, worked.nextId, snap.timestamp));
        Outcome(Recorded(entered, ExpectedSlippage(c, fill.contracts), fill.slippageVsMid), [], r.fill, false)
  }

  /** Cancel an order the market did not take. */
  function Withdrawn(d: Desk, id: Id): Desk {
    if id in d.book.orders then d.(book := AfterCancel(d.book, id)) else d
  }

  // ---------------------------------------------------------------- one cycle

  /** The broker's state with the reconciliation folded in. */
  ghost function Observe(d: Desk): BrokerView {
    BrokerView(d.book.connected, d.book.equity, BooksAgree(OpenOnes(d.portfolio), OpenOnes(d.book.positions)))
  }

  ghost function Evaluation(d: Desk, c: Option<Candidate>, snap: Snapshot, f: Forecast, cfg: DeskConfig): Verdict {
    Judge(c, d.session, d.switches, snap, f, d.portfolio, Observe(d), cfg.risk)
  }

  function Judged(d: Desk, v: Verdict, day: int): Desk {
    d.(session := v.session, switches := v.switches, log := d.log + [Roll(day, d.book.equity)])
  }

  ghost function Step(d: Desk, x: Input, cfg: DeskConfig): Outcome {
    var m := ManageFrom(d, OpenOnes(d.portfolio), x.snap, d.switches != map[], cfg, x.draws);
    if m.raised || !x.tradeable then m
    else if x.forecast.None? then m.(raised := true)
    else
      var traded := Decide(m.desk, x.snap, x.forecast.value, x.optimize, cfg, x.draws);
      traded.(exits := m.exits)
  }

  /** Budget, rank, evaluate and, when approved, execute. */
  ghost function Decide(d: Desk, snap: Snapshot, f: Forecast, optimize: real -> Option<Candidate>, cfg: DeskConfig,
      draws: Draws): Outcome {
    var c := optimize(RiskBudget(d.portfolio, d.book.equity, f, cfg.risk));
    var v := Evaluation(d, c, snap, f, cfg);
    var judged := Judged(d, v, snap.day);
    if c.None? || !v.decision.approved then Outcome(judged, [], None, false)
    else
      ApprovalMeans(c, d.session, d.switches, snap, f, d.portfolio, Observe(d), cfg.risk);
      Execute(judged, c.value, v.decision, snap, cfg, draws)
  }

  ghost function Flatten(d: Desk, snap: Snapshot, reason: ExitReason, cfg: DeskConfig, draws: Draws): Outcome {
    FlattenFrom(d, OpenOnes(d.portfolio), snap, reason, cfg, draws)
  }

  // ---------------------------------------------------------------- runs

  datatype Event =
    | Cycle(input: Input)
    | ForceClose(snap: Snapshot, reason: ExitReason, draws: Draws)
    | Disconnect
    | Reconnect
    | TripSwitch(switch: SwitchReason, detail: string)
    | ResetSwitch(which: Option<SwitchReason>)

  ghost function Next(d: Desk, e: Event, cfg: DeskConfig): Desk {
    match e
    case Cycle(x) => Step(d, x, cfg).desk
    case ForceClose(snap, reason, draws) => Flatten(d, snap, reason, cfg, draws).desk
    case Disconnect => d.(book := d.book.(connected := false))
    case Reconnect => d.(book := d.book.(connected := true))
    case TripSwitch(r, detail) => d.(switches := Tripped(d.switches, r, detail))
    case ResetSwitch(which) => d.(switches := if which.None? then map[] else d.switches - {which.value})
  }

  ghost function Run(d: Desk, events: seq<Event>, cfg: DeskConfig): Desk
    decreases |events|
  {
    if events == [] then d else Next(Run(d, events[..|events| - 1], cfg), events[|events| - 1], cfg)
  }

  /** A desk that has just been built. */
  function NewDesk(cfg: DeskConfig): Desk {
    Desk(Book(cfg.broker.startingEquity, map[], [], [], true), [], FRESH_SESSION, map[], 0, [])
  }
}
