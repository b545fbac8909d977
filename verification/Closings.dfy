/** What a close books against what it pays, and what opening and closing on one snapshot realises. */
module Closings {
  import opened Options
  import opened Market
  import opened Costs
  import opened Positions
  import opened Broker
  import opened Risk
  import opened Trading
  import opened Vectors

  /** Dollars per contract conceded by `k` repricings. */
  function Conceded(o: Order, k: nat, cfg: DeskConfig): real { Steps(k, Concession(o, cfg.broker)) }

  /** A close starts with its limit at the achievable price. */
  lemma CloseStartsAchievable(p: Position, snap: Snapshot, id: Id, cfg: DeskConfig)
    requires cfg.manager.costs == cfg.costs && cfg.broker.repriceStep > 0.0 && ClosePrice(p, snap, cfg.manager).Some?
    ensures var exit := ClosePrice(p, snap, cfg.manager).value;
      var o := CloseOrder(p, exit, id);
      var quotes := QuotesFor(snap.chain, o.strategy.legs);
      quotes.Some? && AchievablePrice(o.strategy.legs, quotes.value, cfg.costs) == -exit
      && Concession(o, cfg.broker) > 0.0
  {
    hide QuotesFor, AchievablePrice, ExitPrice, InvertedLegs;
    InvertedLegsNeedSameQuotes(snap.chain, p.strategy.legs);
    ClosingPriceIsExitPrice(p.strategy.legs, QuotesFor(snap.chain, p.strategy.legs).value, cfg.costs);
    ConcessionIsPositive(cfg.broker.repriceStep, |p.strategy.legs|);
  }

  /** Contracts the displayed sizes let a close fill at once. */
  function CloseSize(p: Position, snap: Snapshot, id: Id, cfg: DeskConfig): int
    requires ClosePrice(p, snap, cfg.manager).Some?
  {
    InvertedLegsNeedSameQuotes(snap.chain, p.strategy.legs);
    FillSize(CloseOrder(p, ClosePrice(p, snap, cfg.manager).value, id),
             QuotesFor(snap.chain, InvertedLegs(p.strategy.legs)).value,
             cfg.broker)
  }

  lemma CloseOrderSize(p: Position, snap: Snapshot, id: Id, cfg: DeskConfig)
    requires ClosePrice(p, snap, cfg.manager).Some?
    ensures var o := CloseOrder(p, ClosePrice(p, snap, cfg.manager).value, id);
      && QuotesFor(snap.chain, o.strategy.legs).Some?
      && FillSize(o.(status := Working), QuotesFor(snap.chain, o.strategy.legs).value, cfg.broker)
         == CloseSize(p, snap, id, cfg)
  {
    hide QuotesFor, FillSize, ExitPrice;
    InvertedLegsNeedSameQuotes(snap.chain, p.strategy.legs);
    var o := CloseOrder(p, ClosePrice(p, snap, cfg.manager).value, id);
    SizeIgnoresStatus(o, QuotesFor(snap.chain, o.strategy.legs).value, cfg.broker);
  }

  /** A close that fills pays the exit price for the displayed size at its first accepted draw, and
      leaves a limit one concession away per refused draw; a close for a credit is never refused. */
  lemma CloseConcedes(p: Position, snap: Snapshot, id: Id, cfg: DeskConfig, draws: Draws)
    requires cfg.manager.costs == cfg.costs && cfg.broker.repriceStep > 0.0
    requires ClosePrice(p, snap, cfg.manager).Some?
    requires var o := CloseOrder(p, ClosePrice(p, snap, cfg.manager).value, id); Work(o, snap, cfg, draws).fill.Some?
    ensures var exit := ClosePrice(p, snap, cfg.manager).value;
      var o := CloseOrder(p, exit, id);
      var r := Work(o, snap, cfg, draws);
      && r.fill.value.price == -exit
      && r.fill.value.contracts == CloseSize(p, snap, id, cfg)
      && FirstAccepted(DrawsFor(draws, id), 0, r.order.reprices)
      && r.order.limitPrice == -exit + Conceded(o, r.order.reprices, cfg)
      && (exit > 0.0 ==> r.order.reprices == 0)
  {
    hide QuotesFor, AchievablePrice, ClosePrice, Steps, PollLoop, Concession, FillSize, CloseSize, Depth, LargestLeg;
    var exit := ClosePrice(p, snap, cfg.manager).value;
    var o := CloseOrder(p, exit, id);
    var working := o.(status := Working);
    CloseStartsAchievable(p, snap, id, cfg);
    NoSteps(Concession(o, cfg.broker));
    CloseOrderSize(p, snap, id, cfg);
    ConcessionIgnoresStatus(o, cfg.broker);
    LoopLimit(working, cfg.broker, cfg.costs, snap.chain, DrawsFor(draws, o.id), 0, cfg.maxPolls, -exit, 0);
  }

  lemma ConcessionIgnoresStatus(o: Order, cfg: BrokerConfig)
    ensures Concession(o.(status := Working), cfg) == Concession(o, cfg)
  {
  }

  lemma ConcessionIsPositive(step: real, legs: nat)
    requires step > 0.0 && legs > 0
    ensures step * legs as real > 0.0
  {
  }

  /** What the fill earned on the contracts it closed, less the entry commission and its own. */
  function CashPnl(p: Position, fill: Fill): real {
    Product(-fill.price - p.entryPrice, MULTIPLIER * fill.contracts as real) - p.entryCommission - fill.commission
  }

  lemma BookedOverContracts(p: Position, r: Polled)
    requires r.fill.Some?
    ensures BookedPnl(p, r)
         == Product(-r.order.limitPrice - p.entryPrice, MULTIPLIER * p.contracts as real)
            - p.entryCommission - r.fill.value.commission
  {
  }

  /** Dollars a close books beyond what its fill earned: the open gain of the contracts left unfilled,
      less every concession over the whole position. */
  function BookedExcess(p: Position, snap: Snapshot, id: Id, k: nat, cfg: DeskConfig): real
    requires ClosePrice(p, snap, cfg.manager).Some?
  {
    var exit := ClosePrice(p, snap, cfg.manager).value;
    Product(exit - p.entryPrice, MULTIPLIER * (p.contracts - CloseSize(p, snap, id, cfg)) as real)
    - Product(Conceded(CloseOrder(p, exit, id), k, cfg), MULTIPLIER * p.contracts as real)
  }

  lemma SplitContracts(gain: real, conceded: real, n: int, m: int)
    ensures Product(gain - conceded, MULTIPLIER * n as real) - Product(gain, MULTIPLIER * m as real)
         == Product(gain, MULTIPLIER * (n - m) as real) - Product(conceded, MULTIPLIER * n as real)
  {
    ProductDistributes(MULTIPLIER * n as real, gain, conceded);
    ProductDistributes(gain, MULTIPLIER * n as real, MULTIPLIER * m as real);
    assert MULTIPLIER * n as real - MULTIPLIER * m as real == MULTIPLIER * (n - m) as real;
  }

  /** The whole difference between the booked and the earned result of a filled close. */
  lemma BookedDiffersFromCashBy(p: Position, snap: Snapshot, id: Id, cfg: DeskConfig, draws: Draws)
    requires cfg.manager.costs == cfg.costs && cfg.broker.repriceStep > 0.0
    requires ClosePrice(p, snap, cfg.manager).Some?
    requires Work(CloseOrder(p, ClosePrice(p, snap, cfg.manager).value, id), snap, cfg, draws).fill.Some?
    ensures var r := Work(CloseOrder(p, ClosePrice(p, snap, cfg.manager).value, id), snap, cfg, draws);
      && FirstAccepted(DrawsFor(draws, id), 0, r.order.reprices)
      && BookedPnl(p, r) - CashPnl(p, r.fill.value) == BookedExcess(p, snap, id, r.order.reprices, cfg)
  {
    hide ClosePrice, Work, Conceded, Product, FirstAccepted, BookedPnl, CloseSize;
    var exit := ClosePrice(p, snap, cfg.manager).value;
    var o := CloseOrder(p, exit, id);
    var r := Work(o, snap, cfg, draws);
    CloseConcedes(p, snap, id, cfg, draws);
    BookedOverContracts(p, r);
    var conceded := Conceded(o, r.order.reprices, cfg);
    assert -r.order.limitPrice - p.entryPrice == (exit - p.entryPrice) - conceded;
    assert -r.fill.value.price - p.entryPrice == exit - p.entryPrice;
    SplitContracts(exit - p.entryPrice, conceded, p.contracts, CloseSize(p, snap, id, cfg));
  }

  /** A close of which the displayed sizes cover every contract books exactly what it earned if and only
      if its first draw is accepted. One filled in part at its first draw does if and only if it exits at
      its entry price. In general it does if and only if the gain on the contracts left unfilled equals
      the concessions of the refused draws. */
  lemma BookedIsCashExactlyWhen(p: Position, snap: Snapshot, id: Id, cfg: DeskConfig, draws: Draws, k: nat)
    requires cfg.manager.costs == cfg.costs && cfg.broker.repriceStep > 0.0 && p.contracts >= 1
    requires ClosePrice(p, snap, cfg.manager).Some?
    requires Work(CloseOrder(p, ClosePrice(p, snap, cfg.manager).value, id), snap, cfg, draws).fill.Some?
    requires FirstAccepted(DrawsFor(draws, id), 0, k)
    ensures var exit := ClosePrice(p, snap, cfg.manager).value;
      var r := Work(CloseOrder(p, exit, id), snap, cfg, draws);
      var size := CloseSize(p, snap, id, cfg);
      && r.fill.value.contracts == size <= p.contracts
      && (size == p.contracts ==> (BookedPnl(p, r) == CashPnl(p, r.fill.value) <==> draws(id, 0)))
      && (size < p.contracts && draws(id, 0) ==>
            (BookedPnl(p, r) == CashPnl(p, r.fill.value) <==> exit == p.entryPrice))
      && (BookedPnl(p, r) == CashPnl(p, r.fill.value) <==> BookedExcess(p, snap, id, k, cfg) == 0.0)
  {
    hide ClosePrice, Work, Conceded, Product, BookedPnl, CashPnl;
    var exit := ClosePrice(p, snap, cfg.manager).value;
    var o := CloseOrder(p, exit, id);
    var r := Work(o, snap, cfg, draws);
    CloseConcedes(p, snap, id, cfg, draws);
    BookedDiffersFromCashBy(p, snap, id, cfg, draws);
    FirstAcceptedIsUnique(DrawsFor(draws, id), k, r.order.reprices);
    hide CloseSize, FirstAccepted;
    ConcededIsZeroWhen(o, k, cfg);
    var left := p.contracts - CloseSize(p, snap, id, cfg);
    ZeroProduct(Conceded(o, k, cfg), p.contracts);
    ZeroProduct(exit - p.entryPrice, left);
    ProductSigns(0.0, MULTIPLIER * p.contracts as real);
    NothingLeft(exit - p.entryPrice);
  }

  lemma FirstAcceptedIsUnique(draw: nat -> bool, j: nat, k: nat)
    requires FirstAccepted(draw, 0, j) && FirstAccepted(draw, 0, k)
    ensures j == k && (k == 0 <==> draw(0))
  {
  }

  lemma ZeroProduct(a: real, n: int)
    ensures n >= 1 ==> (Product(a, MULTIPLIER * n as real) == 0.0 <==> a == 0.0)
  {
    var scale := MULTIPLIER * n as real;
    if n >= 1 && a > 0.0 { ProductPositive(a, scale); }
    if n >= 1 && a < 0.0 { ProductPositive(-a, scale); }
  }

  lemma NothingLeft(a: real)
    ensures Product(a, MULTIPLIER * 0 as real) == 0.0
  {
  }

  lemma ConcededIsZeroWhen(o: Order, k: nat, cfg: DeskConfig)
    requires cfg.broker.repriceStep > 0.0
    ensures Conceded(o, k, cfg) == 0.0 <==> k == 0
  {
    ConcessionIsPositive(cfg.broker.repriceStep, |o.strategy.legs|);
    StepsAreZeroWhen(k, Concession(o, cfg.broker));
  }

  lemma StepsAreZeroWhen(k: nat, step: real)
    requires step > 0.0
    ensures Steps(k, step) == 0.0 <==> k == 0
  {
  }

  /** Open a candidate and close the position on the same snapshot, the close filling in full at its
      first poll: the position realises exactly minus the round-trip cost the optimizer charges. */
  lemma RoundTripRealisesItsCost(d: Desk, c: Candidate, decision: Decision, snap: Snapshot, cfg: DeskConfig,
      opening: Draws, reason: ExitReason, closing: Draws)
    requires cfg.manager.costs == cfg.costs && c.maxLoss.Finite? && decision.maxContracts >= 1
    requires Execute(d, c, decision, snap, cfg, opening).fill.Some?
    requires var x := Execute(d, c, decision, snap, cfg, opening).desk;
      && |x.portfolio| > 0
      && ClosesAtOnce(x, x.portfolio[|x.portfolio| - 1], snap, cfg, closing)
    ensures QuotesFor(snap.chain, c.strategy.legs).Some?
    ensures var x := Execute(d, c, decision, snap, cfg, opening).desk;
      var p := x.portfolio[|x.portfolio| - 1];
      var k := ClosePosition(x, p, snap, reason, cfg, closing);
      && k.Closed? && |k.desk.portfolio| == |x.portfolio|
      && k.desk.portfolio[|x.portfolio| - 1].realizedPnl
         == -RoundTripCost(c.strategy.legs, QuotesFor(snap.chain, c.strategy.legs).value, cfg.costs, p.contracts)
  {
    hide Work, AchievablePrice, ExitPrice, Commission, RoundTripCost, QuotesFor, SessionRecord.WithSlippage, PollOrder,
      Withdrawn;
    var x := Execute(d, c, decision, snap, cfg, opening).desk;
    var p := x.portfolio[|x.portfolio| - 1];
    ExecutedTerms(d, c, decision, snap, cfg, opening);
    var quotes := QuotesFor(snap.chain, c.strategy.legs).value;
    var o := CloseOrder(p, ClosePrice(p, snap, cfg.manager).value, x.nextId);
    var r := Work(o, snap, cfg, closing);
    FirstPollTerms(p, snap, x.nextId, cfg, closing);
    RoundTripIsExact(c.strategy.legs, quotes, cfg.costs, p.contracts);
    assert BookedPnl(p, r) == -RoundTripCost(c.strategy.legs, quotes, cfg.costs, p.contracts);
  }

  /** The broker accepts the close of `p` and fills all of it at the first poll. */
  predicate ClosesAtOnce(d: Desk, p: Position, snap: Snapshot, cfg: DeskConfig, draws: Draws) {
    var price := ClosePrice(p, snap, cfg.manager);
    && price.Some? && cfg.maxPolls >= 1
    && CanSubmit(d.book, CloseOrder(p, price.value, d.nextId))
    && FirstPoll(CloseOrder(p, price.value, d.nextId), snap, cfg, draws).fill.Some?
    && FirstPoll(CloseOrder(p, price.value, d.nextId), snap, cfg, draws).fill.value.contracts == p.contracts
  }

  function FirstPoll(o: Order, snap: Snapshot, cfg: DeskConfig, draws: Draws): Polled {
    PollOrder(o.(status := Working), cfg.broker, cfg.costs, snap.chain, draws(o.id, 0))
  }

  lemma FirstPollTerms(p: Position, snap: Snapshot, id: Id, cfg: DeskConfig, draws: Draws)
    requires ClosePrice(p, snap, cfg.manager).Some? && cfg.maxPolls >= 1
    requires var f := FirstPoll(CloseOrder(p, ClosePrice(p, snap, cfg.manager).value, id), snap, cfg, draws);
      f.fill.Some? && f.fill.value.contracts == p.contracts
    ensures var o := CloseOrder(p, ClosePrice(p, snap, cfg.manager).value, id);
      var r := Work(o, snap, cfg, draws);
      && r.fill.Some? && r.order.limitPrice == -ClosePrice(p, snap, cfg.manager).value
      && r.fill.value.commission == Commission(InvertedLegs(p.strategy.legs), cfg.costs, p.contracts)
  {
    hide ClosePrice, QuotesFor, AchievablePrice, FillSize, RepriceOrExpire, Commission, MidPrice;
    var o := CloseOrder(p, ClosePrice(p, snap, cfg.manager).value, id);
    PollFacts(o.(status := Working), cfg.broker, cfg.costs, snap.chain, draws(id, 0));
    assert Work(o, snap, cfg, draws) == FirstPoll(o, snap, cfg, draws);
  }

  /** A fill gives up against the midpoint exactly the entry slippage of its contracts. */
  lemma FillSlipsByEntrySlippage(o: Order, cfg: BrokerConfig, costs: CostModel, chain: seq<Quote>, accepted: bool)
    requires PollOrder(o, cfg, costs, chain, accepted).fill.Some?
    ensures QuotesFor(chain, o.strategy.legs).Some?
    ensures var fill := PollOrder(o, cfg, costs, chain, accepted).fill.value;
      fill.slippageVsMid
        == Product(Size(EntrySlippage(o.strategy.legs, QuotesFor(chain, o.strategy.legs).value, costs)),
                   fill.contracts as real)
  {
    hide QuotesFor, AchievablePrice, MidPrice, EntrySlippage, FillSize, Commission, RepriceOrExpire;
    EntrySlippageIsConceded(o.strategy.legs, QuotesFor(chain, o.strategy.legs).value, costs);
  }

  function Size(x: real): real { if x < 0.0 then -x else x }

  lemma {:induction false} LoopSlipsByEntrySlippage(o: Order, cfg: BrokerConfig, costs: CostModel, chain: seq<Quote>,
      draw: nat -> bool, k: nat, polls: nat)
    requires PollLoop(o, cfg, costs, chain, draw, k, polls).fill.Some?
    ensures QuotesFor(chain, o.strategy.legs).Some?
    ensures var fill := PollLoop(o, cfg, costs, chain, draw, k, polls).fill.value;
      fill.slippageVsMid
        == Product(Size(EntrySlippage(o.strategy.legs, QuotesFor(chain, o.strategy.legs).value, costs)),
                   fill.contracts as real)
    decreases polls - k
  {
    hide PollOrder, QuotesFor, EntrySlippage, Size, Product;
    var r := PollOrder(o, cfg, costs, chain, draw(k));
    PollFacts(o, cfg, costs, chain, draw(k));
    if r.fill.Some? {
      FillSlipsByEntrySlippage(o, cfg, costs, chain, draw(k));
    } else {
      LoopSlipsByEntrySlippage(r.order, cfg, costs, chain, draw, k + 1, polls);
    }
  }

  /** The position an execution adds carries the terms of the candidate and the achievable price and
      commission of its fill. */
  lemma ExecutedTerms(d: Desk, c: Candidate, decision: Decision, snap: Snapshot, cfg: DeskConfig, draws: Draws)
    requires c.maxLoss.Finite? && decision.maxContracts >= 1
    requires Execute(d, c, decision, snap, cfg, draws).fill.Some?
    ensures QuotesFor(snap.chain, c.strategy.legs).Some?
    ensures var ps := Execute(d, c, decision, snap, cfg, draws).desk.portfolio;
      && |ps| == |d.portfolio| + 1
      && var p := ps[|d.portfolio|];
      && p.strategy == c.strategy && p.IsOpen() && 1 <= p.contracts <= decision.maxContracts
      && p.entryPrice == AchievablePrice(c.strategy.legs, QuotesFor(snap.chain, c.strategy.legs).value, cfg.costs)
      && p.entryCommission == Commission(c.strategy.legs, cfg.costs, p.contracts)
      && p.maxLossPerContract == c.maxLoss.value && p.maxProfitPerContract == c.maxProfit && p.exitPlan == c.exitPlan
      && p.openedAt == snap.timestamp && p.currentPrice == p.entryPrice && p.markedAt == Some(snap.timestamp)
      && p.realizedPnl == 0.0 && p.exitReason == None && p.closedAt == None
  {
    hide QuotesFor, AchievablePrice, Commission, PollLoop;
    var o := OpenOrder(c, decision, d.nextId);
    LoopFillsAtAchievable(o.(status := Working), cfg.broker, cfg.costs, snap.chain, DrawsFor(draws, o.id), 0,
                          cfg.maxPolls);
    LoopFacts(o.(status := Working), cfg.broker, cfg.costs, snap.chain, DrawsFor(draws, o.id), 0, cfg.maxPolls);
  }

  /** The slippage sample an opening records: the candidate's estimate for the contracts filled beside
      their entry slippage. */
  lemma ExecutedSample(d: Desk, c: Candidate, decision: Decision, snap: Snapshot, cfg: DeskConfig, draws: Draws)
    requires c.maxLoss.Finite? && decision.maxContracts >= 1
    requires Execute(d, c, decision, snap, cfg, draws).fill.Some?
    ensures QuotesFor(snap.chain, c.strategy.legs).Some?
    ensures var next := Execute(d, c, decision, snap, cfg, draws);
      next.desk.log == d.log + [SlipOf(c, next.fill.value.contracts, snap, cfg)]
  {
    hide QuotesFor, AchievablePrice, Commission, PollLoop, EntrySlippage, Size;
    var o := OpenOrder(c, decision, d.nextId);
    LoopSlipsByEntrySlippage(o.(status := Working), cfg.broker, cfg.costs, snap.chain, DrawsFor(draws, o.id), 0,
                             cfg.maxPolls);
    var r := Work(o, snap, cfg, draws);
    assert r.fill == Execute(d, c, decision, snap, cfg, draws).fill;
    var n := r.fill.value.contracts;
    assert ExpectedSlippage(c, n) == Product(c.expectedSlippage, n as real);
    hide ExpectedSlippage, Product;
    assert Execute(d, c, decision, snap, cfg, draws).desk.log
        == d.log + [Slip(ExpectedSlippage(c, n), r.fill.value.slippageVsMid)];
  }

  /** The slippage sample of opening so many contracts of a candidate. */
  function SlipOf(c: Candidate, contracts: int, snap: Snapshot, cfg: DeskConfig): SessionEvent
    requires QuotesFor(snap.chain, c.strategy.legs).Some?
  {
    Slip(Product(c.expectedSlippage, contracts as real),
         Product(Size(EntrySlippage(c.strategy.legs, QuotesFor(snap.chain, c.strategy.legs).value, cfg.costs)),
                 contracts as real))
  }

  // ---------------------------------------------------------------- a partial close

  /** Two call spreads bought for 1.00, whose long leg is now quoted at 4.00 and whose short leg at 1.00,
      with a single contract displayed, free of costs. */
  ghost predicate HalfClose(p: Position, snap: Snapshot, cfg: DeskConfig) {
    && TwoQuoted(p.strategy.legs, snap.chain, 4.0, 1.0)
    && p.strategy.legs[0].quantity == 1 && p.strategy.legs[1].quantity == -1
    && p.contracts == 2 && p.entryPrice == 1.0 && p.entryCommission == 0.0
    && (forall q | q in snap.chain :: q.bidSize == 1 && q.askSize == 1)
    && cfg.costs == FREE && cfg.manager.costs == FREE && cfg.broker.allowPartialFills && cfg.maxPolls >= 1
  }

  lemma HalfClosePrices(p: Position, snap: Snapshot, cfg: DeskConfig)
    requires HalfClose(p, snap, cfg)
    ensures ClosePrice(p, snap, cfg.manager) == Some(3.0)
    ensures QuotesFor(snap.chain, InvertedLegs(p.strategy.legs)) == Some(snap.chain)
    ensures AchievablePrice(InvertedLegs(p.strategy.legs), snap.chain, FREE) == -3.0
  {
    TwoQuotes(p.strategy.legs, snap.chain, 4.0, 1.0);
    TwoPrices(p.strategy.legs, snap.chain, 4.0, 1.0);
    InvertedLegsNeedSameQuotes(snap.chain, p.strategy.legs);
    ClosingPriceIsExitPrice(p.strategy.legs, snap.chain, FREE);
    hide QuotesFor, ExitPrice, AchievablePrice, LegSlippage, InvertedLegs;
  }

  lemma HalfCloseSize(o: Order, quotes: seq<Quote>, cfg: BrokerConfig)
    requires |o.strategy.legs| == 2 == |quotes| && o.contracts == 2 && o.filled == 0 && cfg.allowPartialFills
    requires forall l | l in o.strategy.legs :: Abs(l.quantity) == 1
    requires forall q | q in quotes :: q.bidSize == 1 && q.askSize == 1
    ensures FillSize(o, quotes, cfg) == 1
  {
    assert quotes[0] in quotes && quotes[1..][0] in quotes;
    assert o.strategy.legs[0] in o.strategy.legs && o.strategy.legs[1..][0] in o.strategy.legs;
    TwoDeep(quotes);
    TwoLarge(o.strategy.legs);
    hide Depth, LargestLeg;
  }

  lemma TwoDeep(quotes: seq<Quote>)
    requires |quotes| == 2 && forall q | q in quotes :: q.bidSize == 1 && q.askSize == 1
    ensures Depth(quotes) == 1
  {
    var rest := quotes[1..];
    assert quotes[0] in quotes && rest[0] == quotes[1] && quotes[1] in quotes;
    assert Depth(rest) == 1;
  }

  lemma TwoLarge(legs: seq<Leg>)
    requires |legs| == 2 && forall l | l in legs :: Abs(l.quantity) == 1
    ensures LargestLeg(legs) == 1
  {
    var rest := legs[1..];
    assert legs[0] in legs && rest[0] == legs[1] && legs[1] in legs;
    assert LargestLeg(rest) == 1;
  }

  lemma HalfClosePoll(p: Position, snap: Snapshot, cfg: DeskConfig, id: Id)
    requires HalfClose(p, snap, cfg)
    ensures var r := PollOrder(CloseOrder(p, 3.0, id).(status := Working), cfg.broker, cfg.costs, snap.chain, true);
      && r.fill.Some? && r.fill.value.contracts == 1 && r.fill.value.price == -3.0 && r.fill.value.commission == 0.0
      && r.order.limitPrice == -3.0
  {
    hide QuotesFor, AchievablePrice, FillSize, Commission, PollOrder, ClosePrice, Quote.IsFor;
    HalfClosePrices(p, snap, cfg);
    var o := CloseOrder(p, 3.0, id).(status := Working);
    HalfCloseSize(o, snap.chain, cfg.broker);
    FreeCommission(o.strategy.legs);
    AcceptedPoll(o, cfg.broker, FREE, snap.chain, snap.chain);
  }

  /** A poll of an achievable order that is accepted fills the displayed size at the achievable price. */
  lemma AcceptedPoll(o: Order, cfg: BrokerConfig, costs: CostModel, chain: seq<Quote>, quotes: seq<Quote>)
    requires !o.IsTerminal() && QuotesFor(chain, o.strategy.legs) == Some(quotes) && FillSize(o, quotes, cfg) >= 1
    requires AchievablePrice(o.strategy.legs, quotes, costs) <= o.limitPrice
    ensures var r := PollOrder(o, cfg, costs, chain, true);
      && r.fill.Some? && r.fill.value.contracts == FillSize(o, quotes, cfg)
      && r.fill.value.price == AchievablePrice(o.strategy.legs, quotes, costs)
      && r.fill.value.commission == Commission(o.strategy.legs, costs, FillSize(o, quotes, cfg))
      && r.order.limitPrice == o.limitPrice
  {
    hide QuotesFor, AchievablePrice, FillSize, MidPrice, Commission;
  }

  lemma FreeCommission(legs: seq<Leg>)
    ensures Commission(legs, FREE, 1) == 0.0
  {
  }

  lemma HalfCloseProfit(p: Position, r: Polled)
    requires p.contracts == 2 && p.entryPrice == 1.0 && p.entryCommission == 0.0
    requires r.fill.Some? && r.fill.value.contracts == 1 && r.fill.value.price == -3.0 && r.fill.value.commission == 0.0
    requires r.order.limitPrice == -3.0
    ensures CashPnl(p, r.fill.value) == 200.0 && BookedPnl(p, r) == 400.0
  {
  }

  /** One of two spreads is sold at the first poll for a gain of 200; the close books 400 and marks the
      whole position closed. */
  lemma HalfCloseBooksTwice(p: Position, snap: Snapshot, cfg: DeskConfig, draws: Draws, d: Desk, reason: ExitReason)
    requires HalfClose(p, snap, cfg) && d.portfolio == [p] && draws(d.nextId, 0)
    requires CanSubmit(d.book, CloseOrder(p, 3.0, d.nextId))
    ensures var r := Work(CloseOrder(p, 3.0, d.nextId), snap, cfg, draws);
      r.fill.Some? && r.fill.value.contracts == 1 && CashPnl(p, r.fill.value) == 200.0
    ensures var c := ClosePosition(d, p, snap, reason, cfg, draws);
      && c.Closed? && |c.desk.portfolio| == 1 && !c.desk.portfolio[0].IsOpen()
      && c.desk.portfolio[0].contracts == 2 && c.desk.portfolio[0].realizedPnl == 400.0
  {
    HalfClosePrices(p, snap, cfg);
    HalfClosePoll(p, snap, cfg, d.nextId);
    var o := CloseOrder(p, 3.0, d.nextId);
    var r := Work(o, snap, cfg, draws);
    assert r == PollOrder(o.(status := Working), cfg.broker, cfg.costs, snap.chain, true) by {
      hide PollOrder;
    }
    HalfCloseProfit(p, r);
    hide PollOrder, QuotesFor, ExitPrice, InvertedLegs, Work, BookedPnl, CashPnl, ClosePrice;
    var closed := p.Closed(snap.timestamp, BookedPnl(p, r), reason);
    assert Replaced(d.portfolio, closed.id, closed)[0] == closed;
  }
}
