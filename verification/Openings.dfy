/** What an approved order can do on the snapshot it was decided on. */
module Openings {
  import opened Options
  import opened Market
  import opened Costs
  import opened Positions
  import opened Broker
  import opened Risk
  import opened Trading
  import opened Vectors
  import Generators

  // ---------------------------------------------------------------- when an approved order can fill

  /** A tick per leg. */
  function Tolerance(c: Candidate): real { 0.01 * |c.strategy.legs| as real }

  /** The price is within what an approval of `c` may ever pay: for a debit the estimate, the tolerance and
      every concession; for a credit the estimate less the tolerance, which repricing only lowers. */
  predicate WithinApproval(c: Candidate, price: real, cfg: BrokerConfig) {
    if c.entryPrice >= 0.0 then
      price <= c.entryPrice + Tolerance(c) + Steps(cfg.maxRepriceAttempts, cfg.repriceStep * |c.strategy.legs| as real)
    else price <= c.entryPrice - Tolerance(c)
  }

  lemma ApprovedLimit(c: Candidate, decision: Decision, id: Id)
    requires decision.priceLimit == PriceLimit(c)
    ensures OpenOrder(c, decision, id).limitPrice == PriceLimit(c)
    ensures PriceLimit(c) >= 0.0 <==> c.entryPrice >= 0.0
  {
  }

  lemma {:induction false} DrawsDecide(o: Order, cfg: BrokerConfig, costs: CostModel, chain: seq<Quote>,
      a: nat -> bool, b: nat -> bool, k: nat, polls: nat)
    requires forall i: nat :: a(i) == b(i)
    ensures PollLoop(o, cfg, costs, chain, a, k, polls) == PollLoop(o, cfg, costs, chain, b, k, polls)
    decreases polls - k
  {
    hide PollOrder;
    if k < polls {
      var r := PollOrder(o, cfg, costs, chain, a(k));
      DrawsDecide(r.order, cfg, costs, chain, a, b, k + 1, polls);
    }
  }

  lemma ApprovedReaches(c: Candidate, decision: Decision, id: Id, price: real, cfg: BrokerConfig)
    requires decision.priceLimit == PriceLimit(c) && cfg.repriceStep >= 0.0
    ensures var o := OpenOrder(c, decision, id).(status := Working);
      Reaches(o, price, cfg) <==> WithinApproval(c, price, cfg)
  {
    ApprovedLimit(c, decision, id);
    var o := OpenOrder(c, decision, id).(status := Working);
    ConcessionIsNonNegative(o, cfg);
    StepsAreNonNegative(cfg.maxRepriceAttempts, Concession(o, cfg));
  }

  lemma StepsAreNonNegative(n: nat, step: real)
    requires step >= 0.0
    ensures Steps(n, step) >= 0.0
  {
    ProductNonNegative(n as real, step);
  }

  /** An approved order can fill on its decision snapshot, for some draws, exactly when the displayed sizes
      allow a contract and the achievable price is within the approval. */
  lemma ApprovedOpensExactlyWhen(d: Desk, c: Candidate, decision: Decision, snap: Snapshot, cfg: DeskConfig)
    requires c.maxLoss.Finite? && decision.priceLimit == PriceLimit(c)
    requires CanSubmit(d.book, OpenOrder(c, decision, d.nextId)) && QuotesFor(snap.chain, c.strategy.legs).Some?
    requires cfg.broker.repriceStep >= 0.0 && cfg.maxPolls > cfg.broker.maxRepriceAttempts
    ensures var quotes := QuotesFor(snap.chain, c.strategy.legs).value;
      (exists draws: Draws :: Execute(d, c, decision, snap, cfg, draws).fill.Some?) <==>
        && FillSize(OpenOrder(c, decision, d.nextId), quotes, cfg.broker) >= 1
        && WithinApproval(c, AchievablePrice(c.strategy.legs, quotes, cfg.costs), cfg.broker)
  {
    hide PollLoop, QuotesFor, AchievablePrice, Reaches, WithinApproval, PriceLimit, Depth, LargestLeg;
    var o := OpenOrder(c, decision, d.nextId);
    var working := o.(status := Working);
    var quotes := QuotesFor(snap.chain, c.strategy.legs).value;
    SizeIgnoresStatus(o, quotes, cfg.broker);
    hide FillSize;
    ApprovedReaches(c, decision, d.nextId, AchievablePrice(c.strategy.legs, quotes, cfg.costs), cfg.broker);
    LoopCanFillExactlyWhen(working, cfg.broker, cfg.costs, snap.chain, 0, cfg.maxPolls);
    if draw: nat -> bool :| PollLoop(working, cfg.broker, cfg.costs, snap.chain, draw, 0, cfg.maxPolls).fill.Some? {
      var draws: Draws := (id: Id, k: nat) => draw(k);
      DrawsDecide(working, cfg.broker, cfg.costs, snap.chain, draw, DrawsFor(draws, o.id), 0, cfg.maxPolls);
      ExecutedIsWorked(d, c, decision, snap, cfg, draws);
    }
    forall draws: Draws | Execute(d, c, decision, snap, cfg, draws).fill.Some?
      ensures PollLoop(working, cfg.broker, cfg.costs, snap.chain, DrawsFor(draws, o.id), 0, cfg.maxPolls).fill.Some?
    {
      ExecutedIsWorked(d, c, decision, snap, cfg, draws);
    }
  }

  lemma ExecutedIsWorked(d: Desk, c: Candidate, decision: Decision, snap: Snapshot, cfg: DeskConfig, draws: Draws)
    requires c.maxLoss.Finite? && CanSubmit(d.book, OpenOrder(c, decision, d.nextId))
    ensures var o := OpenOrder(c, decision, d.nextId);
      Execute(d, c, decision, snap, cfg, draws).fill
        == PollLoop(o.(status := Working), cfg.broker, cfg.costs, snap.chain, DrawsFor(draws, o.id), 0,
                    cfg.maxPolls).fill
  {
    hide PollLoop, OpenOrder;
  }

  // ---------------------------------------------------------------- credits

  /** A credit whose estimate is less than a tick per leg above the achievable price is never opened on its
      decision snapshot, whatever the draws: its limit is below that price and repricing lowers it. */
  lemma CreditNeverOpens(d: Desk, c: Candidate, decision: Decision, snap: Snapshot, cfg: DeskConfig, draws: Draws)
    requires c.maxLoss.Finite? && decision.priceLimit == PriceLimit(c) && c.entryPrice < 0.0
    requires cfg.broker.repriceStep >= 0.0 && QuotesFor(snap.chain, c.strategy.legs).Some?
    requires var quotes := QuotesFor(snap.chain, c.strategy.legs).value;
      c.entryPrice < AchievablePrice(c.strategy.legs, quotes, cfg.costs) + Tolerance(c)
    ensures Execute(d, c, decision, snap, cfg, draws).fill.None?
  {
    hide PollLoop, QuotesFor, AchievablePrice;
    var o := OpenOrder(c, decision, d.nextId);
    ApprovedLimit(c, decision, d.nextId);
    if CanSubmit(d.book, o) {
      ExecutedIsWorked(d, c, decision, snap, cfg, draws);
      LostCreditNeverFills(o.(status := Working), cfg.broker, cfg.costs, snap.chain, DrawsFor(draws, o.id), 0,
                           cfg.maxPolls);
    }
  }

  // ---------------------------------------------------------------- what the optimizer estimates

  ghost predicate OncePerContract(chain: seq<Quote>) {
    forall i, j | 0 <= i < j < |chain| :: Contract(chain[i]) != Contract(chain[j])
  }

  function Contract(q: Quote): LegKey { (q.expiration, q.strike, q.right) }

  /** The optimizer and the broker use one unstressed cost model on a chain that quotes each contract once,
      and no price of it is as low as the one-cent floor. */
  ghost predicate SameCosts(ctx: Generators.Context, model: CostModel) {
    && OncePerContract(ctx.chain)
    && ctx.aggressiveness == model.spreadCapture && model.spreadMultiplier == 1.0 && model.adverseTicks == 0.0
    && (forall q, buying: bool | q in ctx.chain :: SidePrice(q, model, buying) >= 0.01)
  }

  lemma EstimateIsSidePrice(ctx: Generators.Context, q: Quote, model: CostModel, buying: bool)
    requires ctx.aggressiveness == model.spreadCapture && model.spreadMultiplier == 1.0 && model.adverseTicks == 0.0
    requires q.bid <= q.ask && SidePrice(q, model, buying) >= 0.01
    ensures ctx.ExecutionPrice(q, buying) == SidePrice(q, model, buying)
  {
  }

  lemma {:induction false} OnlyQuote(chain: seq<Quote>, leg: Leg, i: nat)
    requires OncePerContract(chain) && i < |chain| && chain[i].IsFor(leg)
    ensures QuoteFor(chain, leg) == Some(chain[i])
  {
    assert chain[i] in chain;
    var j := QuoteIsFirst(chain, leg);
    assert Contract(chain[j]) == Contract(chain[i]);
  }

  lemma LegIsPricedByItsQuote(ctx: Generators.Context, spec: Generators.Spec, model: CostModel)
    requires ctx.Listed() && SameCosts(ctx, model) && ctx.MakeLeg(spec).Some?
    ensures var leg := ctx.MakeLeg(spec).value;
      && QuoteFor(ctx.chain, leg).Some? && QuoteFor(ctx.chain, leg).value.Mid() > 0.0
      && leg.entryPrice == SidePrice(QuoteFor(ctx.chain, leg).value, model, leg.quantity > 0)
  {
    var q := ctx.Lookup(ctx.chain, spec.Key()).value;
    var i :| 0 <= i < |ctx.chain| && ctx.chain[i] == q;
    EstimateIsSidePrice(ctx, q, model, spec.quantity > 0);
    OnlyQuote(ctx.chain, ctx.MakeLeg(spec).value, i);
  }

  /** Net entry price per share, from the legs' estimates. */
  function EntryPerShare(legs: seq<Leg>): real {
    if legs == [] then 0.0 else legs[0].quantity as real * legs[0].entryPrice + EntryPerShare(legs[1..])
  }

  lemma {:induction false} NetCostIsPerShare(legs: seq<Leg>)
    ensures NetEntryCost(legs) == EntryPerShare(legs) * MULTIPLIER
  {
    if legs != [] {
      NetCostIsPerShare(legs[1..]);
      assert Weights(legs)[1..] == Weights(legs[1..]) && EntryPrices(legs)[1..] == EntryPrices(legs[1..]);
    }
  }

  lemma {:induction false} LegsArePricedByTheirQuotes(ctx: Generators.Context, specs: seq<Generators.Spec>,
      model: CostModel)
    requires ctx.Listed() && SameCosts(ctx, model) && ctx.MakeLegs(specs).Some?
    ensures var legs := ctx.MakeLegs(specs).value;
      && QuotesFor(ctx.chain, legs).Some?
      && AchievablePrice(legs, QuotesFor(ctx.chain, legs).value, model) == EntryPerShare(legs)
  {
    hide SidePrice, SameCosts, QuoteFor, Generators.Context.MakeLeg;
    if specs != [] {
      LegIsPricedByItsQuote(ctx, specs[0], model);
      LegsArePricedByTheirQuotes(ctx, specs[1..], model);
      FirstLegAndTheRest(ctx.chain, ctx.MakeLegs(specs).value, model);
    }
  }

  lemma FirstLegAndTheRest(chain: seq<Quote>, legs: seq<Leg>, model: CostModel)
    requires legs != [] && QuotesFor(chain, legs[1..]).Some?
    requires QuoteFor(chain, legs[0]).Some? && QuoteFor(chain, legs[0]).value.Mid() > 0.0
    ensures var quotes := QuotesFor(chain, legs);
      && quotes.Some?
      && AchievablePrice(legs, quotes.value, model)
         == legs[0].quantity as real * SidePrice(QuoteFor(chain, legs[0]).value, model, legs[0].quantity > 0)
            + AchievablePrice(legs[1..], QuotesFor(chain, legs[1..]).value, model)
  {
    hide SidePrice, QuoteFor, Quote.Mid;
    var quotes := QuotesFor(chain, legs).value;
    assert quotes[1..] == QuotesFor(chain, legs[1..]).value;
  }

  /** The optimizer's estimate of a generated structure is exactly the broker's achievable price for it. */
  lemma EstimateIsAchievable(ctx: Generators.Context, specs: seq<Generators.Spec>, model: CostModel)
    requires ctx.Listed() && SameCosts(ctx, model) && ctx.MakeLegs(specs).Some?
    ensures var legs := ctx.MakeLegs(specs).value;
      && QuotesFor(ctx.chain, legs).Some?
      && NetEntryCost(legs) == AchievablePrice(legs, QuotesFor(ctx.chain, legs).value, model) * MULTIPLIER
  {
    hide SameCosts;
    LegsArePricedByTheirQuotes(ctx, specs, model);
    NetCostIsPerShare(ctx.MakeLegs(specs).value);
  }

  /** So an approved generated structure can open on its decision snapshot if it is a debit and the sizes
      allow a contract, and never if it is a credit. */
  lemma GeneratedOpensExactlyWhen(d: Desk, ctx: Generators.Context, specs: seq<Generators.Spec>, c: Candidate,
      decision: Decision, snap: Snapshot, cfg: DeskConfig)
    requires ctx.Listed() && SameCosts(ctx, cfg.costs) && ctx.chain == snap.chain
    requires ctx.MakeLegs(specs) == Some(c.strategy.legs)
    requires c.entryPrice == NetEntryCost(c.strategy.legs) / MULTIPLIER
    requires c.maxLoss.Finite? && decision.priceLimit == PriceLimit(c)
    requires CanSubmit(d.book, OpenOrder(c, decision, d.nextId))
    requires cfg.broker.repriceStep >= 0.0 && cfg.maxPolls > cfg.broker.maxRepriceAttempts
    ensures QuotesFor(snap.chain, c.strategy.legs).Some?
    ensures (exists draws: Draws :: Execute(d, c, decision, snap, cfg, draws).fill.Some?) <==>
      && c.entryPrice >= 0.0
      && FillSize(OpenOrder(c, decision, d.nextId), QuotesFor(snap.chain, c.strategy.legs).value, cfg.broker) >= 1
  {
    hide SameCosts, NetEntryCost, AchievablePrice, QuotesFor, Execute, FillSize, OpenOrder, PriceLimit;
    EstimateIsAchievable(ctx, specs, cfg.costs);
    ApprovedOpensExactlyWhen(d, c, decision, snap, cfg);
    StepsAreNonNegative(cfg.broker.maxRepriceAttempts, cfg.broker.repriceStep * |c.strategy.legs| as real) by {
      ProductNonNegative(cfg.broker.repriceStep, |c.strategy.legs| as real);
    }
  }

  /** An instance: a call spread sold at 2.00 for one leg and bought at 1.00 for the other, free of costs,
      for a credit of exactly 1.00. Its order asks for 1.02 and nothing ever fills it. */
  lemma CreditOneTickShort(d: Desk, c: Candidate, decision: Decision, snap: Snapshot, cfg: DeskConfig, draws: Draws)
    requires TwoQuoted(c.strategy.legs, snap.chain, 2.0, 1.0) && cfg.costs == FREE && cfg.broker.repriceStep >= 0.0
    requires c.strategy.legs[0].quantity == -1 && c.strategy.legs[1].quantity == 1 && c.entryPrice == -1.0
    requires c.maxLoss.Finite? && decision.priceLimit == PriceLimit(c)
    ensures OpenOrder(c, decision, d.nextId).limitPrice == -1.02
    ensures Execute(d, c, decision, snap, cfg, draws).fill.None?
  {
    TwoQuotes(c.strategy.legs, snap.chain, 2.0, 1.0);
    TwoPrices(c.strategy.legs, snap.chain, 2.0, 1.0);
    hide QuotesFor, AchievablePrice, Execute;
    CreditNeverOpens(d, c, decision, snap, cfg, draws);
  }
}
