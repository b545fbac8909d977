/** The mutable pipeline, proved against the desk functions. */
module Pipeline {
  import opened Options
  import opened Market
  import opened Positions
  import opened Broker
  import opened Risk
  import opened Trading
  import HiddenStates

  class PortfolioState {
    var positions: seq<Position>

    constructor ()
      ensures positions == []
    {
      positions := [];
    }

    method Add(p: Position)
      modifies this
      ensures positions == old(positions) + [p]
    {
      positions := positions + [p];
    }

    method Close(id: Id, closed: Position)
      modifies this
      ensures positions == Replaced(old(positions), id, closed)
    {
      positions := Replaced(positions, id, closed);
    }
  }

  class DecisionPipeline {
    const config: DeskConfig
    const broker: PaperBroker
    const portfolio: PortfolioState
    const risk: RiskEngine
    var nextId: Id
    /** The forecast engine's hidden-state belief, which only the engine and a restore write. */
    var hiddenBelief: seq<real>
    ghost var log: seq<SessionEvent>

    ghost function View(): Desk
      reads this, broker, portfolio, risk.session, risk.killSwitch
    {
      Desk(broker.View(), portfolio.positions, risk.session.View(), risk.killSwitch.active, nextId, log)
    }

    /** The parts were built with the pipeline's own configuration. */
    predicate Valid() {
      broker.config == config.broker && broker.costs == config.costs && risk.config == config.risk
    }

    constructor (config: DeskConfig)
      ensures Valid() && View() == NewDesk(config) && this.config == config && hiddenBelief == HiddenStates.Uniform()
      ensures fresh(broker) && fresh(portfolio) && fresh(risk.session) && fresh(risk.killSwitch)
    {
      var killSwitch := new KillSwitch();
      var session := new SessionState();
      this.config := config;
      broker := new PaperBroker(config.broker, config.costs);
      portfolio := new PortfolioState();
      risk := new RiskEngine(config.risk, killSwitch, session);
      nextId, hiddenBelief, log := 0, HiddenStates.Uniform(), [];
    }

    /** Poll until a fill, a terminal status or the poll limit. */
    method PollUntilDone(order: Order, snap: Snapshot, draws: Draws) returns (r: Polled)
      requires Valid() && order.id in broker.orders && broker.orders[order.id] == order
      modifies broker
      ensures r == PollLoop(order, config.broker, config.costs, snap.chain, DrawsFor(draws, order.id), 0,
                            config.maxPolls)
      ensures r.order.id == order.id && broker.View() == AfterPoll(old(broker.View()), r)
    {
      hide PollOrder, AfterPoll;
      ghost var before := broker.View();
      r := Polled(order, None);
      PollWithoutNews(before, order);
      for k := 0 to config.maxPolls
        invariant r.fill.None? && r.order.id == order.id && order.id in broker.orders
        invariant broker.orders[order.id] == r.order
        invariant broker.View() == AfterPoll(before, r)
        invariant PollLoop(order, config.broker, config.costs, snap.chain, DrawsFor(draws, order.id), 0,
                           config.maxPolls)
               == PollLoop(r.order, config.broker, config.costs, snap.chain, DrawsFor(draws, order.id), k,
                           config.maxPolls)
      {
        PollFacts(r.order, config.broker, config.costs, snap.chain, draws(order.id, k));
        var polled := broker.Poll(order.id, snap.chain, draws(order.id, k));
        PolledAgain(before, r.order, polled.value);
        r := polled.value;
        if r.fill.Some? || r.order.IsTerminal() {
          return;
        }
        AfterPollStores(before, r);
      }
    }

    lemma PollWithoutNews(b: Book, o: Order)
      requires o.id in b.orders && b.orders[o.id] == o
      ensures AfterPoll(b, Polled(o, None)) == b
    {
      assert b.orders[o.id := o] == b.orders;
    }

    /** The outcome of an earlier poll of the same order is overwritten. */
    lemma PolledAgain(b: Book, o: Order, r: Polled)
      requires r.order.id == o.id
      ensures AfterPoll(AfterPoll(b, Polled(o, None)), r) == AfterPoll(b, r)
    {
      assert b.orders[o.id := o][o.id := r.order] == b.orders[o.id := r.order];
      assert b.fills + [] == b.fills;
    }

    lemma AfterPollStores(b: Book, r: Polled)
      ensures r.order.id in AfterPoll(b, r).orders && AfterPoll(b, r).orders[r.order.id] == r.order
    {
    }

    /** Submit an order and work it. */
    method WorkOrder(order: Order, snap: Snapshot, draws: Draws) returns (r: Option<Polled>)
      requires Valid() && order.id == nextId
      modifies this`nextId, broker
      ensures r.None? <==> !CanSubmit(old(View()).book, order)
      ensures r.None? ==> View() == old(View()).(nextId := old(nextId) + 1)
      ensures r.Some? ==>
        r.value == Work(order, snap, config, draws) && View() == AfterWork(old(View()), order, r.value)
      ensures r.Some? ==> r.value.order.id == order.id
    {
      hide PollLoop, AfterPoll;
      nextId := nextId + 1;
      var error := broker.Submit(order);
      if error.Some? {
        return None;
      }
      var polled := PollUntilDone(order.(status := Working), snap, draws);
      r := Some(polled);
    }

    /** The pipeline is now in the state a closing describes. */
    ghost predicate Became(c: Closing, closed: bool, raised: bool)
      reads this, broker, portfolio, risk.session, risk.killSwitch
    {
      View() == c.desk && closed == c.Closed? && raised == c.Broken?
    }

    method ClosePosition(p: Position, snap: Snapshot, reason: ExitReason, draws: Draws) returns (closed: bool,
        raised: bool)
      requires Valid()
      modifies this, broker, portfolio, risk.session
      ensures Became(Trading.ClosePosition(old(View()), p, snap, reason, config, draws), closed, raised)
    {
      hide Work, ClosePrice, AfterWork, RealizedPnl, Replaced, Upsert, SessionRecord.WithTrade;
      closed, raised := false, false;
      var price := ClosePrice(p, snap, config.manager);
      if price.None? {
        return;
      }
      var order := CloseOrder(p, price.value, nextId);
      var worked := WorkOrder(order, snap, draws);
      if worked.None? {
        raised := true;
        return;
      }
      if worked.value.fill.None? {
        return;
      }
      var exitPrice := -worked.value.order.limitPrice;
      var pnl := RealizedPnl(p, exitPrice) - worked.value.fill.value.commission;
      var position := p.Closed(snap.timestamp, pnl, reason);
      portfolio.Close(p.id, position);
      broker.SettlePosition(position, pnl);
      risk.session.RecordTrade(pnl, broker.equity);
      log := log + [Trade(pnl, broker.equity)];
      closed := true;
    }

    method ManageOne(p: Position, snap: Snapshot, killSwitchActive: bool, draws: Draws) returns (closed: bool,
        raised: bool)
      requires Valid()
      modifies this, broker, portfolio, risk.session
      ensures Became(Trading.ManageOne(old(View()), p, snap, killSwitchActive, config, draws), closed, raised)
    {
      hide Trading.ClosePosition, CheckExit, Mark, Replaced;
      closed, raised := false, false;
      var marked := Mark(p, snap, config.manager);
      portfolio.Close(marked.id, marked);
      var signal := CheckExit(marked, snap, config.manager, killSwitchActive);
      if signal.Some? {
        closed, raised := ClosePosition(marked, snap, signal.value, draws);
      }
    }

    method ManageOpenPositions(snap: Snapshot, draws: Draws) returns (exits: seq<Id>, raised: bool)
      requires Valid()
      modifies this, broker, portfolio, risk.session
      ensures Outcome(View(), exits, None, raised) ==
        ManageFrom(old(View()), OpenOnes(old(portfolio.positions)), snap, old(risk.killSwitch.active) != map[], config,
                   draws)
    {
      hide Trading.ManageOne, ManageFrom, Prefixed, View;
      var killSwitchActive := risk.killSwitch.active != map[];
      var todo := OpenOnes(portfolio.positions);
      exits, raised := [], false;
      ghost var whole := ManageFrom(View(), todo, snap, killSwitchActive, config, draws);
      WalkStarts(whole);
      var i := 0;
      assert todo[0..] == todo;
      while i < |todo|
        invariant i <= |todo|
        invariant Prefixed(exits, ManageFrom(View(), todo[i..], snap, killSwitchActive, config, draws)) == whole
      {
        ManageWalk(View(), todo, i, exits, snap, killSwitchActive, draws);
        var closed, broken := ManageOne(todo[i], snap, killSwitchActive, draws);
        if broken {
          raised := true;
          return;
        }
        if closed {
          exits := exits + [todo[i].id];
        }
        i := i + 1;
      }
      assert todo[i..] == [];
      ManageEnds(View(), exits, snap, killSwitchActive, draws);
    }

    lemma WalkStarts(x: Outcome)
      ensures Prefixed([], x) == x
    {
    }

    lemma PrefixedTwice(a: seq<Id>, b: seq<Id>, x: Outcome)
      ensures Prefixed(a, Prefixed(b, x)) == Prefixed(a + b, x)
    {
      assert a + (b + x.exits) == (a + b) + x.exits;
    }

    lemma ManageWalk(d: Desk, todo: seq<Position>, i: nat, exits: seq<Id>, snap: Snapshot, killSwitchActive: bool,
        draws: Draws)
      requires i < |todo|
      ensures var c := Trading.ManageOne(d, todo[i], snap, killSwitchActive, config, draws);
        Prefixed(exits, ManageFrom(d, todo[i..], snap, killSwitchActive, config, draws)) ==
        if c.Broken? then Outcome(c.desk, exits, None, true)
        else Prefixed(if c.Closed? then exits + [todo[i].id] else exits,
                      ManageFrom(c.desk, todo[i + 1..], snap, killSwitchActive, config, draws))
    {
      hide Trading.ManageOne;
      assert todo[i..][1..] == todo[i + 1..];
      var c := Trading.ManageOne(d, todo[i], snap, killSwitchActive, config, draws);
      PrefixedTwice(exits, ExitOf(c, todo[i]), ManageFrom(c.desk, todo[i + 1..], snap, killSwitchActive, config,
                    draws));
      assert exits + [] == exits;
    }

    lemma ManageEnds(d: Desk, exits: seq<Id>, snap: Snapshot, killSwitchActive: bool, draws: Draws)
      ensures Prefixed(exits, ManageFrom(d, [], snap, killSwitchActive, config, draws))
        == Outcome(d, exits, None, false)
    {
    }

    /** Submit the approved order; register the position it fills, or withdraw it. */
    method Execute(c: Candidate, decision: Decision, snap: Snapshot, draws: Draws) returns (fill: Option<Fill>,
        raised: bool)
      requires Valid() && c.maxLoss.Finite?
      modifies this, broker, portfolio, risk.session
      ensures Outcome(View(), [], fill, raised) == Trading.Execute(old(View()), c, decision, snap, config, draws)
    {
      hide Work, ExpectedSlippage, PollLoop;
      fill, raised := None, false;
      var order := OpenOrder(c, decision, nextId);
      var worked := WorkOrder(order, snap, draws);
      if worked.None? {
        raised := true;
        return;
      }
      fill := worked.value.fill;
      if fill.None? {
        if !worked.value.order.IsTerminal() {
          var _ := broker.Cancel(order.id);
        }
        return;
      }
      var position := NewPosition(c, fill.value, nextId, snap.timestamp);
      nextId := nextId + 1;
      portfolio.Add(position);
      broker.RegisterPosition(position);
      risk.session.RecordSlippage(ExpectedSlippage(c, fill.value.contracts), fill.value.slippageVsMid);
      log := log + [Slip(ExpectedSlippage(c, fill.value.contracts), fill.value.slippageVsMid)];
    }

    method Step(x: Input) returns (exits: seq<Id>, fill: Option<Fill>, raised: bool)
      requires Valid()
      modifies this, broker, portfolio, risk.session, risk.killSwitch
      ensures Outcome(View(), exits, fill, raised) == Trading.Step(old(View()), x, config)
    {
      hide ManageFrom, Judge, Trading.Execute, RiskBudget;
      fill := None;
      exits, raised := ManageOpenPositions(x.snap, x.draws);
      if raised || !x.tradeable {
        return;
      }
      if x.forecast.None? {
        raised := true;
        return;
      }
      ghost var managed := View();
      var discrepancies := Reconcile(OpenOnes(portfolio.positions), OpenOnes(broker.positions));
      var state := BrokerView(broker.connected, broker.equity, discrepancies == []);
      var budget := RiskBudget(portfolio.positions, state.equity, x.forecast.value, config.risk);
      var candidate := x.optimize(budget);
      var decision, _ := risk.Evaluate(candidate, x.snap, x.forecast.value, portfolio.positions, state);
      log := log + [Roll(x.snap.day, state.equity)];
      assert View() == Judged(managed, Evaluation(managed, candidate, x.snap, x.forecast.value, config), x.snap.day);
      if candidate.None? || !decision.approved {
        return;
      }
      ApprovalMeans(candidate, managed.session, managed.switches, x.snap, x.forecast.value, managed.portfolio,
                    Observe(managed), config.risk);
      fill, raised := Execute(candidate.value, decision, x.snap, x.draws);
    }

    method ForceCloseAll(snap: Snapshot, reason: ExitReason, draws: Draws) returns (closed: seq<Id>, raised: bool)
      requires Valid()
      modifies this, broker, portfolio, risk.session
      ensures Outcome(View(), closed, None, raised) == Flatten(old(View()), snap, reason, config, draws)
    {
      hide Trading.ClosePosition, FlattenFrom, Prefixed, Mark;
      var todo := OpenOnes(portfolio.positions);
      closed, raised := [], false;
      ghost var whole := FlattenFrom(View(), todo, snap, reason, config, draws);
      hide View;
      WalkStarts(whole);
      var i := 0;
      assert todo[0..] == todo;
      while i < |todo|
        invariant i <= |todo|
        invariant Prefixed(closed, FlattenFrom(View(), todo[i..], snap, reason, config, draws)) == whole
      {
        FlattenWalk(View(), todo, i, closed, snap, reason, draws);
        var marked := Mark(todo[i], snap, config.manager);
        var done, broken := ClosePosition(marked, snap, reason, draws);
        if broken {
          raised := true;
          return;
        }
        if done {
          closed := closed + [marked.id];
        }
        i := i + 1;
      }
      assert todo[i..] == [];
      FlattenEnds(View(), closed, snap, reason, draws);
    }

    lemma FlattenWalk(d: Desk, todo: seq<Position>, i: nat, exits: seq<Id>, snap: Snapshot, reason: ExitReason,
        draws: Draws)
      requires i < |todo|
      ensures var c := Trading.ClosePosition(d, Mark(todo[i], snap, config.manager), snap, reason, config, draws);
        Prefixed(exits, FlattenFrom(d, todo[i..], snap, reason, config, draws)) ==
        if c.Broken? then Outcome(c.desk, exits, None, true)
        else Prefixed(if c.Closed? then exits + [todo[i].id] else exits,
                      FlattenFrom(c.desk, todo[i + 1..], snap, reason, config, draws))
    {
      hide Trading.ClosePosition, Mark;
      assert todo[i..][1..] == todo[i + 1..];
      var c := Trading.ClosePosition(d, Mark(todo[i], snap, config.manager), snap, reason, config, draws);
      PrefixedTwice(exits, ExitOf(c, todo[i]), FlattenFrom(c.desk, todo[i + 1..], snap, reason, config, draws));
      assert exits + [] == exits;
    }

    lemma FlattenEnds(d: Desk, exits: seq<Id>, snap: Snapshot, reason: ExitReason, draws: Draws)
      ensures Prefixed(exits, FlattenFrom(d, [], snap, reason, config, draws)) == Outcome(d, exits, None, false)
    {
    }
  }
}
