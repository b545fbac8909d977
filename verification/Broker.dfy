/** The paper broker: order lifecycle, repricing, fills, equity and positions. */
module Broker {
  import opened Options
  import opened Market
  import opened Costs
  import opened Positions
  import opened Vectors

  datatype Intent = OpenIntent | CloseIntent
  datatype Status = PendingNew | Working | PartiallyFilled | Filled | Cancelled | Rejected | Expired

  datatype Order = Order(id: Id, strategy: Strategy, contracts: int, limitPrice: real, intent: Intent,
                         status: Status, filled: int, reprices: nat)
  {
    predicate IsTerminal() { status.Filled? || status.Cancelled? || status.Rejected? || status.Expired? }

    function Remaining(): nat { if contracts <= filled then 0 else contracts - filled }
  }

  datatype Fill = Fill(orderId: Id, contracts: int, price: real, commission: real, slippageVsMid: real)

  datatype BrokerConfig = BrokerConfig(startingEquity: real, maxRepriceAttempts: nat, repriceStep: real,
      allowPartialFills: bool)

  datatype BrokerError = Disconnected | DuplicateOrder | UnknownOrder

  datatype Polled = Polled(order: Order, fill: Option<Fill>)

  // ---------------------------------------------------------------- one poll of one order

  function Concession(o: Order, cfg: BrokerConfig): real { cfg.repriceStep * |o.strategy.legs| as real }

  /** Concede one step, or give up once the attempt budget is spent. A credit limit moves further down. */
  function RepriceOrExpire(o: Order, cfg: BrokerConfig): Order {
    if o.reprices >= cfg.maxRepriceAttempts then o.(status := Expired)
    else
      o.(status := Working, reprices := o.reprices + 1,
         limitPrice := if o.limitPrice >= 0.0 then o.limitPrice + Concession(o, cfg)
         else o.limitPrice - Concession(o, cfg))
  }

  function Depth(quotes: seq<Quote>): int
    requires quotes != []
  {
    var top := if quotes[0].askSize < quotes[0].bidSize then quotes[0].askSize else quotes[0].bidSize;
    if |quotes| == 1 then top
    else
      var rest := Depth(quotes[1..]);
      if rest < top then rest else top
  }

  function LargestLeg(legs: seq<Leg>): (n: nat)
    requires legs != []
    ensures n >= 1
  {
    var first := Abs(legs[0].quantity);
    if |legs| == 1 then first
    else
      var rest := LargestLeg(legs[1..]);
      if rest > first then rest else first
  }

  function FillSize(o: Order, quotes: seq<Quote>, cfg: BrokerConfig): (n: int)
    requires |quotes| == |o.strategy.legs|
    ensures n <= o.Remaining()
  {
    var capacity := Depth(quotes) / LargestLeg(o.strategy.legs);
    if capacity >= o.Remaining() then o.Remaining()
    else if !cfg.allowPartialFills || capacity < 0 then 0
    else capacity
  }

  lemma SizeIgnoresStatus(o: Order, quotes: seq<Quote>, cfg: BrokerConfig)
    requires |quotes| == |o.strategy.legs|
    ensures FillSize(o.(status := Working), quotes, cfg) == FillSize(o, quotes, cfg)
  {
    hide Depth, LargestLeg;
  }

  lemma {:induction false} DepthIsLeast(quotes: seq<Quote>, i: nat)
    requires i < |quotes|
    ensures Depth(quotes) <= quotes[i].bidSize && Depth(quotes) <= quotes[i].askSize
  {
    if i > 0 { DepthIsLeast(quotes[1..], i - 1); }
  }

  lemma {:induction false} LargestLegIsGreatest(legs: seq<Leg>, i: nat)
    requires i < |legs|
    ensures Abs(legs[i].quantity) <= LargestLeg(legs)
  {
    if i > 0 { LargestLegIsGreatest(legs[1..], i - 1); }
  }

  lemma WithinCapacity(n: int, q: nat, largest: nat, depth: int)
    requires largest >= 1 && q <= largest && 1 <= n <= depth / largest
    ensures q * n <= depth
  {
    var capacity := depth / largest;
    assert largest * capacity <= depth;
    assert (largest - q) * n >= 0 && largest * (capacity - n) >= 0;
  }

  /** A fill never takes more of any leg than its displayed bid and ask sizes. */
  lemma FillFitsDisplayedSize(o: Order, quotes: seq<Quote>, cfg: BrokerConfig, i: nat)
    requires |quotes| == |o.strategy.legs| && i < |quotes| && FillSize(o, quotes, cfg) >= 1
    ensures Abs(o.strategy.legs[i].quantity) * FillSize(o, quotes, cfg) <= quotes[i].bidSize
    ensures Abs(o.strategy.legs[i].quantity) * FillSize(o, quotes, cfg) <= quotes[i].askSize
  {
    DepthIsLeast(quotes, i);
    LargestLegIsGreatest(o.strategy.legs, i);
    WithinCapacity(FillSize(o, quotes, cfg), Abs(o.strategy.legs[i].quantity), LargestLeg(o.strategy.legs),
                   Depth(quotes));
  }

  /** Every displayed size holds `n` contracts of every leg, whichever leg it is shown for. */
  ghost predicate AllHold(legs: seq<Leg>, quotes: seq<Quote>, n: int) {
    forall i, j | 0 <= i < |quotes| && 0 <= j < |legs| ::
      Abs(legs[j].quantity) * n <= quotes[i].bidSize && Abs(legs[j].quantity) * n <= quotes[i].askSize
  }

  /** Every leg's own displayed sizes hold `n` contracts of it. */
  ghost predicate EachHolds(legs: seq<Leg>, quotes: seq<Quote>, n: int)
    requires |quotes| == |legs|
  {
    forall i | 0 <= i < |legs| ::
      Abs(legs[i].quantity) * n <= quotes[i].bidSize && Abs(legs[i].quantity) * n <= quotes[i].askSize
  }

  lemma {:induction false} DepthIsShown(quotes: seq<Quote>) returns (i: nat)
    requires quotes != []
    ensures i < |quotes| && (Depth(quotes) == quotes[i].bidSize || Depth(quotes) == quotes[i].askSize)
  {
    i := 0;
    if |quotes| > 1 {
      var k := DepthIsShown(quotes[1..]);
      if Depth(quotes) == Depth(quotes[1..]) { i := k + 1; }
    }
  }

  lemma {:induction false} LargestLegIsTraded(legs: seq<Leg>) returns (i: nat)
    requires legs != []
    ensures i < |legs| && Abs(legs[i].quantity) == LargestLeg(legs)
  {
    i := 0;
    if |legs| > 1 {
      var k := LargestLegIsTraded(legs[1..]);
      if LargestLeg(legs) == LargestLeg(legs[1..]) { i := k + 1; }
    }
  }

  lemma CapacityHolds(n: int, largest: nat, depth: int)
    requires largest >= 1
    ensures n <= depth / largest <==> largest * n <= depth
  {
    var capacity := depth / largest;
    assert depth == largest * capacity + depth % largest;
    if n <= capacity {
      assert largest * (capacity - n) >= 0;
    } else {
      assert largest * (n - capacity - 1) >= 0;
    }
  }

  lemma SmallerLegNeedsLess(q: nat, largest: nat, n: nat)
    requires q <= largest
    ensures q * n <= largest * n
  {
    assert (largest - q) * n >= 0;
  }

  lemma CapacityIsWhatAllHold(legs: seq<Leg>, quotes: seq<Quote>, n: nat)
    requires |quotes| == |legs| > 0
    ensures n <= Depth(quotes) / LargestLeg(legs) <==> AllHold(legs, quotes, n)
  {
    hide Depth, LargestLeg;
    CapacityHolds(n, LargestLeg(legs), Depth(quotes));
    var i := DepthIsShown(quotes);
    var j := LargestLegIsTraded(legs);
    if LargestLeg(legs) * n <= Depth(quotes) {
      forall k, l | 0 <= k < |quotes| && 0 <= l < |legs|
        ensures Abs(legs[l].quantity) * n <= quotes[k].bidSize && Abs(legs[l].quantity) * n <= quotes[k].askSize
      {
        DepthIsLeast(quotes, k);
        LargestLegIsGreatest(legs, l);
        SmallerLegNeedsLess(Abs(legs[l].quantity), LargestLeg(legs), n);
      }
    }
  }

  /** With partial fills the size is the greatest number of remaining contracts that every displayed size
      holds of every leg; without them all that remains or nothing. */
  lemma FillSizeIsGreatest(o: Order, quotes: seq<Quote>, cfg: BrokerConfig, n: int)
    requires |quotes| == |o.strategy.legs| && n >= 1
    ensures cfg.allowPartialFills ==>
      (n <= FillSize(o, quotes, cfg) <==> n <= o.Remaining() && AllHold(o.strategy.legs, quotes, n))
    ensures FillSize(o, quotes, cfg) >= 0
    ensures !cfg.allowPartialFills ==>
      FillSize(o, quotes, cfg) == if AllHold(o.strategy.legs, quotes, o.Remaining()) then o.Remaining() else 0
  {
    hide Depth, LargestLeg, AllHold;
    CapacityIsWhatAllHold(o.strategy.legs, quotes, n);
    CapacityIsWhatAllHold(o.strategy.legs, quotes, o.Remaining());
  }

  /** All legs trade the same number of contracts. */
  ghost predicate EvenLegs(legs: seq<Leg>) {
    forall i, j | 0 <= i < |legs| && 0 <= j < |legs| :: Abs(legs[i].quantity) == Abs(legs[j].quantity)
  }

  lemma EvenLegsHoldAlike(legs: seq<Leg>, quotes: seq<Quote>, n: int)
    requires |quotes| == |legs| && EvenLegs(legs)
    ensures AllHold(legs, quotes, n) <==> EachHolds(legs, quotes, n)
  {
    if EachHolds(legs, quotes, n) {
      forall i, j | 0 <= i < |quotes| && 0 <= j < |legs|
        ensures Abs(legs[j].quantity) * n <= quotes[i].bidSize && Abs(legs[j].quantity) * n <= quotes[i].askSize
      {
        assert Abs(legs[j].quantity) == Abs(legs[i].quantity);
      }
    }
  }

  /** Sizes that show exactly one contract of each leg. */
  function ShowingOne(legs: seq<Leg>): (quotes: seq<Quote>)
    ensures |quotes| == |legs|
    ensures forall i | 0 <= i < |legs| ::
      quotes[i].bidSize == Abs(legs[i].quantity) && quotes[i].askSize == Abs(legs[i].quantity)
  {
    seq(|legs|, i requires 0 <= i < |legs| =>
      Quote(legs[i].expiry, legs[i].strike, legs[i].right, 1.0, 1.0, Abs(legs[i].quantity), Abs(legs[i].quantity), 0.0))
  }

  /** An order is filled for as many contracts as each leg's own display holds, whatever is displayed, if
      and only if its legs all trade the same number: the least display is divided by the largest leg. */
  lemma FillsLegByLegExactlyWhen(o: Order, cfg: BrokerConfig)
    requires cfg.allowPartialFills && o.Remaining() >= 1
    ensures (forall quotes: seq<Quote>, n: int | |quotes| == |o.strategy.legs| && 1 <= n <= o.Remaining()
                                                 && EachHolds(o.strategy.legs, quotes, n) ::
               n <= FillSize(o, quotes, cfg))
        <==> EvenLegs(o.strategy.legs)
  {
    hide FillSize, AllHold, EachHolds;
    var legs := o.strategy.legs;
    if EvenLegs(legs) {
      forall quotes: seq<Quote>, n: int | |quotes| == |legs| && 1 <= n <= o.Remaining() && EachHolds(legs, quotes, n)
        ensures n <= FillSize(o, quotes, cfg)
      {
        EvenLegsHoldAlike(legs, quotes, n);
        FillSizeIsGreatest(o, quotes, cfg, n);
      }
    } else {
      var quotes := ShowingOne(legs);
      OneOfEach(legs);
      FillSizeIsGreatest(o, quotes, cfg, 1);
      assert EachHolds(legs, quotes, 1) && !(1 <= FillSize(o, quotes, cfg));
    }
  }

  lemma OneOfEach(legs: seq<Leg>)
    ensures EachHolds(legs, ShowingOne(legs), 1)
    ensures AllHold(legs, ShowingOne(legs), 1) ==> EvenLegs(legs)
  {
    var quotes := ShowingOne(legs);
    if AllHold(legs, quotes, 1) {
      forall i, j | 0 <= i < |legs| && 0 <= j < |legs| ensures Abs(legs[i].quantity) == Abs(legs[j].quantity) {
        assert Abs(legs[j].quantity) * 1 <= quotes[i].bidSize && Abs(legs[i].quantity) * 1 <= quotes[j].bidSize;
      }
    }
  }

  /** An instance: one backspread, one contract short and two long, with one and two contracts displayed.
      Both legs could trade and nothing fills. */
  lemma BackspreadFillsNothing(o: Order, quotes: seq<Quote>, cfg: BrokerConfig)
    requires |o.strategy.legs| == 2 && o.strategy.legs[0].quantity == -1 && o.strategy.legs[1].quantity == 2
    requires |quotes| == 2 && quotes[0].bidSize == 1 && quotes[0].askSize == 1
    requires quotes[1].bidSize == 2 && quotes[1].askSize == 2
    requires o.contracts == 1 && o.filled == 0 && cfg.allowPartialFills
    ensures EachHolds(o.strategy.legs, quotes, 1) && FillSize(o, quotes, cfg) == 0
  {
    FillSizeIsGreatest(o, quotes, cfg, 1);
    assert !AllHold(o.strategy.legs, quotes, 1) by {
      assert Abs(o.strategy.legs[1].quantity) * 1 > quotes[0].bidSize;
    }
    hide FillSize;
  }

  /** `accepted` is whether the random draw fell within the fill probability. */
  function PollOrder(o: Order, cfg: BrokerConfig, costs: CostModel, chain: seq<Quote>, accepted: bool): Polled {
    if o.IsTerminal() then Polled(o, None)
    else
      var quotes := QuotesFor(chain, o.strategy.legs);
      if quotes.None? then Polled(o.(status := Rejected), None)
      else
        var achievable := AchievablePrice(o.strategy.legs, quotes.value, costs);
        var size := FillSize(o, quotes.value, cfg);
        if achievable > o.limitPrice || !accepted || size < 1 then Polled(RepriceOrExpire(o, cfg), None)
        else RecordFill(o, costs, quotes.value, achievable, size)
  }

  function RecordFill(o: Order, costs: CostModel, quotes: seq<Quote>, price: real, size: int): Polled
    requires |quotes| == |o.strategy.legs|
  {
    var gap := price - MidPrice(o.strategy.legs, quotes);
    var total := o.filled + size;
    Polled(o.(filled := total, status := if total >= o.contracts then Filled else PartiallyFilled),
           Some(Fill(o.id, size, price, Commission(o.strategy.legs, costs, size),
                     (if gap < 0.0 then -gap else gap) * MULTIPLIER * size as real)))
  }

  /** What one poll can do to an order. */
  lemma PollFacts(o: Order, cfg: BrokerConfig, costs: CostModel, chain: seq<Quote>, accepted: bool)
    ensures var r := PollOrder(o, cfg, costs, chain, accepted);
      && r.order.id == o.id && r.order.strategy == o.strategy && r.order.intent == o.intent
      && r.order.contracts == o.contracts
      && (r.fill.Some? ==> r.fill.value.orderId == o.id && 1 <= r.fill.value.contracts <= o.Remaining()
                           && r.order.filled == o.filled + r.fill.value.contracts && r.fill.value.price <= o.limitPrice
                           && r.fill.value.commission == Commission(o.strategy.legs, costs, r.fill.value.contracts))
      && (r.fill.None? ==> r.order.filled == o.filled)
      && (o.IsTerminal() ==> r == Polled(o, None))
  {
    hide QuotesFor, AchievablePrice, Commission, MidPrice, Concession;
  }

  // ---------------------------------------------------------------- every order ends

  /** Contracts still wanted plus concessions still allowed. */
  function Budget(o: Order, cfg: BrokerConfig): nat {
    o.Remaining() + if o.reprices >= cfg.maxRepriceAttempts then 0 else cfg.maxRepriceAttempts - o.reprices
  }

  lemma PollSpendsBudget(o: Order, cfg: BrokerConfig, costs: CostModel, chain: seq<Quote>, accepted: bool)
    requires !o.IsTerminal()
    ensures var r := PollOrder(o, cfg, costs, chain, accepted).order;
      r.IsTerminal() || Budget(r, cfg) < Budget(o, cfg)
  {
    hide QuotesFor, AchievablePrice, Commission, MidPrice, Concession;
  }

  datatype Look = Look(chain: seq<Quote>, accepted: bool)

  function PollAll(o: Order, cfg: BrokerConfig, costs: CostModel, looks: seq<Look>): (Order, seq<Fill>)
    decreases |looks|
  {
    if looks == [] then (o, [])
    else
      var r := PollOrder(o, cfg, costs, looks[0].chain, looks[0].accepted);
      var (last, fills) := PollAll(r.order, cfg, costs, looks[1..]);
      (last, (if r.fill.Some? then [r.fill.value] else []) + fills)
  }

  lemma {:induction false} TerminalAbsorbs(o: Order, cfg: BrokerConfig, costs: CostModel, looks: seq<Look>)
    requires o.IsTerminal()
    ensures PollAll(o, cfg, costs, looks) == (o, [])
    decreases |looks|
  {
    if looks != [] {
      TerminalAbsorbs(o, cfg, costs, looks[1..]);
      assert PollOrder(o, cfg, costs, looks[0].chain, looks[0].accepted) == Polled(o, None);
      assert PollAll(o, cfg, costs, looks).1 == PollAll(o, cfg, costs, looks[1..]).1;
    }
  }

  /** Whatever the market does, an order is terminal after one poll more than its budget. */
  lemma {:induction false} EveryOrderEnds(o: Order, cfg: BrokerConfig, costs: CostModel, looks: seq<Look>)
    requires |looks| > Budget(o, cfg)
    ensures PollAll(o, cfg, costs, looks).0.IsTerminal()
    decreases |looks|
  {
    hide PollOrder;
    if o.IsTerminal() {
      TerminalAbsorbs(o, cfg, costs, looks);
    } else {
      var r := PollOrder(o, cfg, costs, looks[0].chain, looks[0].accepted).order;
      PollSpendsBudget(o, cfg, costs, looks[0].chain, looks[0].accepted);
      if r.IsTerminal() {
        TerminalAbsorbs(r, cfg, costs, looks[1..]);
      } else {
        EveryOrderEnds(r, cfg, costs, looks[1..]);
      }
    }
  }

  /** A freshly submitted order therefore ends within contracts + max_reprice_attempts + 1 polls. */
  lemma SubmittedOrderEnds(o: Order, cfg: BrokerConfig, costs: CostModel, looks: seq<Look>)
    requires o.filled == 0 && o.reprices == 0 && o.contracts >= 0
    requires |looks| == o.contracts + cfg.maxRepriceAttempts + 1
    ensures PollAll(o, cfg, costs, looks).0.IsTerminal()
  {
    EveryOrderEnds(o, cfg, costs, looks);
  }

  function ContractsIn(fills: seq<Fill>): int {
    if fills == [] then 0 else fills[0].contracts + ContractsIn(fills[1..])
  }

  /** Filled contracts are the sum of the fills and never exceed the order. */
  lemma {:induction false} FillsAddUp(o: Order, cfg: BrokerConfig, costs: CostModel, looks: seq<Look>)
    requires o.filled <= o.contracts
    ensures var (last, fills) := PollAll(o, cfg, costs, looks);
      last.filled == o.filled + ContractsIn(fills) && last.filled <= o.contracts && last.contracts == o.contracts
    decreases |looks|
  {
    hide PollOrder;
    if looks != [] {
      PollFacts(o, cfg, costs, looks[0].chain, looks[0].accepted);
      var r := PollOrder(o, cfg, costs, looks[0].chain, looks[0].accepted);
      FillsAddUp(r.order, cfg, costs, looks[1..]);
      if r.fill.Some? {
        assert ([r.fill.value] + PollAll(r.order, cfg, costs, looks[1..]).1)[1..]
          == PollAll(r.order, cfg, costs, looks[1..]).1;
      } else {
        assert [] + PollAll(r.order, cfg, costs, looks[1..]).1 == PollAll(r.order, cfg, costs, looks[1..]).1;
      }
    }
  }

  /** Filled means complete, partially filled means begun and incomplete. */
  predicate StatusFits(o: Order) {
    && (o.status.Filled? <==> o.filled == o.contracts)
    && (o.status.PartiallyFilled? ==> 0 < o.filled < o.contracts)
  }

  /** Over any polls an order is marked filled exactly when all its contracts are. */
  lemma {:induction false} FilledExactlyWhenComplete(o: Order, cfg: BrokerConfig, costs: CostModel, looks: seq<Look>)
    requires StatusFits(o) && 0 <= o.filled <= o.contracts
    ensures StatusFits(PollAll(o, cfg, costs, looks).0)
    decreases |looks|
  {
    if looks != [] {
      PollKeepsStatus(o, cfg, costs, looks[0].chain, looks[0].accepted);
      hide PollOrder, StatusFits;
      FilledExactlyWhenComplete(PollOrder(o, cfg, costs, looks[0].chain, looks[0].accepted).order, cfg, costs,
                                looks[1..]);
    }
  }

  lemma PollKeepsStatus(o: Order, cfg: BrokerConfig, costs: CostModel, chain: seq<Quote>, accepted: bool)
    requires StatusFits(o) && 0 <= o.filled <= o.contracts
    ensures var r := PollOrder(o, cfg, costs, chain, accepted).order;
      StatusFits(r) && 0 <= r.filled <= r.contracts
  {
    hide QuotesFor, AchievablePrice, Commission, MidPrice, Concession;
  }

  // ---------------------------------------------------------------- what an order can pay

  /** The highest limit `o` can still reach. */
  function PriceCeiling(o: Order, cfg: BrokerConfig): real {
    o.limitPrice
    + (if o.reprices >= cfg.maxRepriceAttempts then 0.0
       else Steps(cfg.maxRepriceAttempts - o.reprices, Concession(o, cfg)))
  }

  function Steps(n: nat, step: real): real { n as real * step }

  lemma StepsUnroll(n: nat, step: real)
    requires n > 0 && step >= 0.0
    ensures Steps(n, step) == Steps(n - 1, step) + step && Steps(n - 1, step) >= 0.0
  {
    ProductNonNegative((n - 1) as real, step);
  }

  lemma RepriceKeepsCeiling(o: Order, cfg: BrokerConfig)
    requires Concession(o, cfg) >= 0.0
    ensures var r := RepriceOrExpire(o, cfg);
      PriceCeiling(r, cfg) <= PriceCeiling(o, cfg) && o.limitPrice <= PriceCeiling(o, cfg)
      && Concession(r, cfg) == Concession(o, cfg)
  {
    var r, c := RepriceOrExpire(o, cfg), Concession(o, cfg);
    assert Concession(r, cfg) == c;
    hide Steps, Concession;
    if o.reprices < cfg.maxRepriceAttempts {
      StepsUnroll(cfg.maxRepriceAttempts - o.reprices, c);
      if o.reprices + 1 == cfg.maxRepriceAttempts { NoSteps(c); }
    }
  }

  lemma NoSteps(step: real)
    ensures Steps(0, step) == 0.0
  {
  }

  /** Every fill price is at most the limit plus the concessions still to come. */
  lemma {:induction false} FillPriceIsBounded(o: Order, cfg: BrokerConfig, costs: CostModel, looks: seq<Look>)
    requires cfg.repriceStep >= 0.0
    ensures forall f | f in PollAll(o, cfg, costs, looks).1 :: f.price <= PriceCeiling(o, cfg)
    decreases |looks|
  {
    hide PriceCeiling, AchievablePrice, QuotesFor, Commission, MidPrice, RepriceOrExpire;
    if looks != [] {
      var r := PollOrder(o, cfg, costs, looks[0].chain, looks[0].accepted);
      PollFacts(o, cfg, costs, looks[0].chain, looks[0].accepted);
      ConcessionIsNonNegative(o, cfg);
      RepriceKeepsCeiling(o, cfg);
      StatusKeepsCeiling(o, r.order, cfg);
      FillPriceIsBounded(r.order, cfg, costs, looks[1..]);
    }
  }

  lemma ConcessionIsNonNegative(o: Order, cfg: BrokerConfig)
    requires cfg.repriceStep >= 0.0
    ensures Concession(o, cfg) >= 0.0
  {
    ProductNonNegative(cfg.repriceStep, |o.strategy.legs| as real);
  }

  lemma StatusKeepsCeiling(o: Order, r: Order, cfg: BrokerConfig)
    ensures r.limitPrice == o.limitPrice && r.reprices == o.reprices && r.strategy == o.strategy
            ==> PriceCeiling(r, cfg) == PriceCeiling(o, cfg)
  {
    hide Steps;
    if r.strategy == o.strategy { assert Concession(r, cfg) == Concession(o, cfg); }
  }

  /** For a fresh order: the initial limit plus max_reprice_attempts concessions of one step per leg. */
  lemma SubmittedFillPrice(o: Order, cfg: BrokerConfig, costs: CostModel, looks: seq<Look>, f: Fill)
    requires cfg.repriceStep >= 0.0 && o.reprices == 0
    requires f in PollAll(o, cfg, costs, looks).1
    ensures f.price <= o.limitPrice + Steps(cfg.maxRepriceAttempts, Concession(o, cfg))
  {
    FillPriceIsBounded(o, cfg, costs, looks);
    NoSteps(Concession(o, cfg));
  }

  // ---------------------------------------------------------------- repeated polls of one snapshot

  /** The pipeline's loop: poll until a fill or a terminal order, at most `polls` times. `draw(k)` is
      the outcome of the k-th random draw. */
  function PollLoop(o: Order, cfg: BrokerConfig, costs: CostModel, chain: seq<Quote>, draw: nat -> bool, k: nat,
      polls: nat): Polled
    decreases polls - k
  {
    if k >= polls then Polled(o, None)
    else
      var r := PollOrder(o, cfg, costs, chain, draw(k));
      if r.fill.Some? || r.order.IsTerminal() then r
      else PollLoop(r.order, cfg, costs, chain, draw, k + 1, polls)
  }

  /** With more polls than concessions the loop always leaves on a fill or a terminal order. */
  lemma {:induction false} LoopAlwaysBreaks(o: Order, cfg: BrokerConfig, costs: CostModel, chain: seq<Quote>,
      draw: nat -> bool, k: nat, polls: nat)
    requires !o.IsTerminal() && o.reprices <= cfg.maxRepriceAttempts && polls - k > cfg.maxRepriceAttempts - o.reprices
    ensures var r := PollLoop(o, cfg, costs, chain, draw, k, polls); r.fill.Some? || r.order.IsTerminal()
    decreases polls - k
  {
    hide QuotesFor, AchievablePrice, Commission, MidPrice, Concession;
    var r := PollOrder(o, cfg, costs, chain, draw(k));
    if r.fill.None? && !r.order.IsTerminal() {
      LoopAlwaysBreaks(r.order, cfg, costs, chain, draw, k + 1, polls);
    }
  }

  lemma {:induction false} LoopFacts(o: Order, cfg: BrokerConfig, costs: CostModel, chain: seq<Quote>,
      draw: nat -> bool, k: nat, polls: nat)
    ensures var r := PollLoop(o, cfg, costs, chain, draw, k, polls);
      && r.order.id == o.id && r.order.strategy == o.strategy && r.order.intent == o.intent
      && r.order.contracts == o.contracts
      && (r.fill.Some? ==> r.fill.value.orderId == o.id && 1 <= r.fill.value.contracts <= o.Remaining()
                           && r.order.filled == o.filled + r.fill.value.contracts
                           && r.fill.value.commission == Commission(o.strategy.legs, costs, r.fill.value.contracts))
      && (r.fill.None? ==> r.order.filled == o.filled)
    decreases polls - k
  {
    hide PollOrder, Commission;
    if k < polls {
      PollFacts(o, cfg, costs, chain, draw(k));
      var r := PollOrder(o, cfg, costs, chain, draw(k));
      if r.fill.None? && !r.order.IsTerminal() {
        LoopFacts(r.order, cfg, costs, chain, draw, k + 1, polls);
      }
    }
  }

  /** A loop that fills has filled at the achievable price of its snapshot. */
  lemma {:induction false} LoopFillsAtAchievable(o: Order, cfg: BrokerConfig, costs: CostModel, chain: seq<Quote>,
      draw: nat -> bool, k: nat, polls: nat)
    requires PollLoop(o, cfg, costs, chain, draw, k, polls).fill.Some?
    ensures QuotesFor(chain, o.strategy.legs).Some?
    ensures PollLoop(o, cfg, costs, chain, draw, k, polls).fill.value.price
         == AchievablePrice(o.strategy.legs, QuotesFor(chain, o.strategy.legs).value, costs)
    decreases polls - k
  {
    hide QuotesFor, AchievablePrice, Commission, MidPrice, RepriceOrExpire, FillSize;
    var r := PollOrder(o, cfg, costs, chain, draw(k));
    PollFacts(o, cfg, costs, chain, draw(k));
    if r.fill.None? {
      LoopFillsAtAchievable(r.order, cfg, costs, chain, draw, k + 1, polls);
    }
  }

  // ---------------------------------------------------------------- what repricing can still reach

  lemma RepriceKeepsSize(o: Order, quotes: seq<Quote>, cfg: BrokerConfig)
    requires |quotes| == |o.strategy.legs|
    ensures FillSize(RepriceOrExpire(o, cfg), quotes, cfg) == FillSize(o, quotes, cfg)
  {
  }

  /** An order too large for the displayed sizes never fills on the snapshot. */
  lemma {:induction false} TooLargeNeverFills(o: Order, cfg: BrokerConfig, costs: CostModel, chain: seq<Quote>,
      draw: nat -> bool, k: nat, polls: nat)
    requires QuotesFor(chain, o.strategy.legs).Some?
    requires FillSize(o, QuotesFor(chain, o.strategy.legs).value, cfg) < 1
    ensures PollLoop(o, cfg, costs, chain, draw, k, polls).fill.None?
    decreases polls - k
  {
    hide QuotesFor, AchievablePrice, FillSize;
    if k < polls && !o.IsTerminal() {
      var r := PollOrder(o, cfg, costs, chain, draw(k)).order;
      RepriceKeepsSize(o, QuotesFor(chain, o.strategy.legs).value, cfg);
      hide RepriceOrExpire;
      if !r.IsTerminal() {
        TooLargeNeverFills(r, cfg, costs, chain, draw, k + 1, polls);
      }
    }
  }

  /** `price` is within the limit, or a non-negative limit can still concede its way up to it. */
  predicate Reaches(o: Order, price: real, cfg: BrokerConfig)
    requires o.reprices <= cfg.maxRepriceAttempts
  {
    || price <= o.limitPrice
    || (o.limitPrice >= 0.0 && price <= o.limitPrice + Steps(cfg.maxRepriceAttempts - o.reprices, Concession(o, cfg)))
  }

  lemma ReachAfterReprice(o: Order, price: real, cfg: BrokerConfig)
    requires cfg.repriceStep >= 0.0 && o.reprices < cfg.maxRepriceAttempts && price > o.limitPrice
    ensures Reaches(RepriceOrExpire(o, cfg), price, cfg) <==> Reaches(o, price, cfg)
  {
    var c, n := Concession(o, cfg), cfg.maxRepriceAttempts - o.reprices;
    assert Concession(RepriceOrExpire(o, cfg), cfg) == c;
    ConcessionIsNonNegative(o, cfg);
    hide Concession, Steps;
    StepsUnroll(n, c);
  }

  lemma NoReachWithoutBudget(o: Order, price: real, cfg: BrokerConfig)
    requires o.reprices == cfg.maxRepriceAttempts && price > o.limitPrice
    ensures !Reaches(o, price, cfg)
  {
    NoSteps(Concession(o, cfg));
  }

  /** A draw that accepts every poll. */
  function Always(k: nat): bool { true }

  lemma {:induction false} ReachedLimitFills(o: Order, cfg: BrokerConfig, costs: CostModel, chain: seq<Quote>,
      k: nat, polls: nat)
    requires !o.IsTerminal() && o.reprices <= cfg.maxRepriceAttempts && cfg.repriceStep >= 0.0
    requires polls - k > cfg.maxRepriceAttempts - o.reprices
    requires QuotesFor(chain, o.strategy.legs).Some?
    requires FillSize(o, QuotesFor(chain, o.strategy.legs).value, cfg) >= 1
    requires Reaches(o, AchievablePrice(o.strategy.legs, QuotesFor(chain, o.strategy.legs).value, costs), cfg)
    ensures PollLoop(o, cfg, costs, chain, Always, k, polls).fill.Some?
    decreases polls - k
  {
    hide QuotesFor, AchievablePrice, FillSize, Reaches;
    var quotes := QuotesFor(chain, o.strategy.legs).value;
    var price := AchievablePrice(o.strategy.legs, quotes, costs);
    if price > o.limitPrice {
      if o.reprices == cfg.maxRepriceAttempts {
        NoReachWithoutBudget(o, price, cfg);
      } else {
        ReachAfterReprice(o, price, cfg);
        RepriceKeepsSize(o, quotes, cfg);
        ReachedLimitFills(RepriceOrExpire(o, cfg), cfg, costs, chain, k + 1, polls);
      }
    }
  }

  lemma {:induction false} FillMeansReached(o: Order, cfg: BrokerConfig, costs: CostModel, chain: seq<Quote>,
      draw: nat -> bool, k: nat, polls: nat)
    requires o.reprices <= cfg.maxRepriceAttempts && cfg.repriceStep >= 0.0
    requires QuotesFor(chain, o.strategy.legs).Some? && PollLoop(o, cfg, costs, chain, draw, k, polls).fill.Some?
    ensures Reaches(o, AchievablePrice(o.strategy.legs, QuotesFor(chain, o.strategy.legs).value, costs), cfg)
    decreases polls - k
  {
    hide QuotesFor, AchievablePrice, FillSize, Steps, Concession;
    var price := AchievablePrice(o.strategy.legs, QuotesFor(chain, o.strategy.legs).value, costs);
    if price > o.limitPrice {
      assert PollOrder(o, cfg, costs, chain, draw(k)) == Polled(RepriceOrExpire(o, cfg), None);
      hide Reaches;
      FillMeansReached(RepriceOrExpire(o, cfg), cfg, costs, chain, draw, k + 1, polls);
      ReachAfterReprice(o, price, cfg);
    }
  }

  /** What repricing is for: on one snapshot a live order can fill, for some draws, exactly when the
      displayed sizes allow a contract and the achievable price is within the limit or, for a limit that
      is not a credit, within all the concessions still to come. A credit limit only moves away. */
  lemma LoopCanFillExactlyWhen(o: Order, cfg: BrokerConfig, costs: CostModel, chain: seq<Quote>, k: nat, polls: nat)
    requires !o.IsTerminal() && o.reprices <= cfg.maxRepriceAttempts && cfg.repriceStep >= 0.0
    requires polls - k > cfg.maxRepriceAttempts - o.reprices
    requires QuotesFor(chain, o.strategy.legs).Some?
    ensures var quotes := QuotesFor(chain, o.strategy.legs).value;
      (exists draw: nat -> bool :: PollLoop(o, cfg, costs, chain, draw, k, polls).fill.Some?) <==>
        FillSize(o, quotes, cfg) >= 1 && Reaches(o, AchievablePrice(o.strategy.legs, quotes, costs), cfg)
  {
    hide QuotesFor, AchievablePrice, FillSize, Reaches, PollLoop;
    var quotes := QuotesFor(chain, o.strategy.legs).value;
    forall draw: nat -> bool | PollLoop(o, cfg, costs, chain, draw, k, polls).fill.Some?
      ensures FillSize(o, quotes, cfg) >= 1 && Reaches(o, AchievablePrice(o.strategy.legs, quotes, costs), cfg)
    {
      FillMeansReached(o, cfg, costs, chain, draw, k, polls);
      if FillSize(o, quotes, cfg) < 1 {
        TooLargeNeverFills(o, cfg, costs, chain, draw, k, polls);
      }
    }
    if FillSize(o, quotes, cfg) >= 1 && Reaches(o, AchievablePrice(o.strategy.legs, quotes, costs), cfg) {
      ReachedLimitFills(o, cfg, costs, chain, k, polls);
    }
  }

  /** A credit limit below the achievable price never fills, whatever the draws. */
  lemma LostCreditNeverFills(o: Order, cfg: BrokerConfig, costs: CostModel, chain: seq<Quote>, draw: nat -> bool,
      k: nat, polls: nat)
    requires o.reprices <= cfg.maxRepriceAttempts && cfg.repriceStep >= 0.0 && o.limitPrice < 0.0
    requires QuotesFor(chain, o.strategy.legs).Some?
    requires o.limitPrice < AchievablePrice(o.strategy.legs, QuotesFor(chain, o.strategy.legs).value, costs)
    ensures PollLoop(o, cfg, costs, chain, draw, k, polls).fill.None?
  {
    hide QuotesFor, AchievablePrice, PollLoop;
    if PollLoop(o, cfg, costs, chain, draw, k, polls).fill.Some? {
      FillMeansReached(o, cfg, costs, chain, draw, k, polls);
    }
  }

  /** Poll `j` is the first accepted from `k` on. */
  ghost predicate FirstAccepted(draw: nat -> bool, k: nat, j: nat) {
    k <= j && draw(j) && forall i | k <= i < j :: !draw(i)
  }

  /** A loop that fills at the price the order started from fills at its first accepted draw, with the
      displayed size: a debit limit has conceded one step per refused draw, a credit limit none. */
  lemma {:induction false} LoopLimit(o: Order, cfg: BrokerConfig, costs: CostModel, chain: seq<Quote>,
      draw: nat -> bool, k: nat, polls: nat, start: real, done: nat)
    requires cfg.repriceStep > 0.0 && o.reprices <= cfg.maxRepriceAttempts && QuotesFor(chain, o.strategy.legs).Some?
    requires AchievablePrice(o.strategy.legs, QuotesFor(chain, o.strategy.legs).value, costs) == start
    requires o.limitPrice == start + Steps(done, Concession(o, cfg))
    requires start < 0.0 ==> done == 0
    ensures var r := PollLoop(o, cfg, costs, chain, draw, k, polls);
      r.fill.Some? ==>
        && r.fill.value.price == start && r.order.reprices >= o.reprices
        && r.fill.value.contracts == FillSize(o, QuotesFor(chain, o.strategy.legs).value, cfg)
        && FirstAccepted(draw, k, k + (r.order.reprices - o.reprices))
        && r.order.limitPrice == start + Steps(done + (r.order.reprices - o.reprices), Concession(o, cfg))
        && (start < 0.0 ==> r.order.reprices == o.reprices)
    decreases polls - k
  {
    hide QuotesFor, AchievablePrice, Commission, MidPrice, FillSize;
    if k < polls && !o.IsTerminal() {
      var quotes := QuotesFor(chain, o.strategy.legs).value;
      var c := Concession(o, cfg);
      ConcessionIsNonNegative(o, cfg);
      StepsFromZero(done, c);
      var polled := PollOrder(o, cfg, costs, chain, draw(k));
      assert polled.fill.Some? <==> draw(k) && FillSize(o, quotes, cfg) >= 1;
      if polled.fill.None? && !polled.order.IsTerminal() {
        LoopLimitGoesOn(o, cfg, costs, chain, draw, k, polls, start, done);
        if FillSize(o, quotes, cfg) >= 1 && start >= 0.0 {
          LoopLimit(polled.order, cfg, costs, chain, draw, k + 1, polls, start, done + 1);
        }
      }
    }
  }

  /** After a refused poll: the order is one concession on, or it will never fill. */
  lemma LoopLimitGoesOn(o: Order, cfg: BrokerConfig, costs: CostModel, chain: seq<Quote>, draw: nat -> bool, k: nat,
      polls: nat, start: real, done: nat)
    requires cfg.repriceStep > 0.0 && o.reprices <= cfg.maxRepriceAttempts && QuotesFor(chain, o.strategy.legs).Some?
    requires AchievablePrice(o.strategy.legs, QuotesFor(chain, o.strategy.legs).value, costs) == start
    requires o.limitPrice == start + Steps(done, Concession(o, cfg)) && Steps(done, Concession(o, cfg)) >= 0.0
    requires (start < 0.0 ==> done == 0) && !o.IsTerminal()
    requires var polled := PollOrder(o, cfg, costs, chain, draw(k)); polled.fill.None? && !polled.order.IsTerminal()
    ensures var quotes := QuotesFor(chain, o.strategy.legs).value;
      var next := PollOrder(o, cfg, costs, chain, draw(k)).order;
      && next.strategy == o.strategy && next.reprices == o.reprices + 1 <= cfg.maxRepriceAttempts
      && FillSize(next, quotes, cfg) == FillSize(o, quotes, cfg) && Concession(next, cfg) == Concession(o, cfg)
      && (start >= 0.0 ==> next.limitPrice == start + Steps(done + 1, Concession(o, cfg)))
      && (FillSize(o, quotes, cfg) < 1 || start < 0.0 ==>
            PollLoop(next, cfg, costs, chain, draw, k + 1, polls).fill.None?)
  {
    hide QuotesFor, AchievablePrice, Commission, MidPrice, FillSize, PollLoop;
    var quotes := QuotesFor(chain, o.strategy.legs).value;
    var next := PollOrder(o, cfg, costs, chain, draw(k)).order;
    assert next == RepriceOrExpire(o, cfg);
    RepriceKeepsSize(o, quotes, cfg);
    var c := Concession(o, cfg);
    assert Concession(next, cfg) == c;
    ConcessionPositive(o, cfg);
    hide Concession, Steps;
    StepsUnroll(done + 1, c);
    if FillSize(o, quotes, cfg) < 1 {
      TooLargeNeverFills(next, cfg, costs, chain, draw, k + 1, polls);
    } else if start < 0.0 {
      NoSteps(c);
      LostCreditNeverFills(next, cfg, costs, chain, draw, k + 1, polls);
    }
  }

  lemma ConcessionPositive(o: Order, cfg: BrokerConfig)
    requires cfg.repriceStep > 0.0
    ensures Concession(o, cfg) > 0.0
  {
    ProductPositive(cfg.repriceStep, |o.strategy.legs| as real);
  }

  lemma StepsFromZero(n: nat, step: real)
    requires step >= 0.0
    ensures Steps(n, step) >= 0.0
  {
    ProductNonNegative(n as real, step);
  }

  // ---------------------------------------------------------------- the broker's book

  datatype Book = Book(equity: real, orders: map<Id, Order>, fills: seq<Fill>, positions: seq<Position>,
      connected: bool)

  predicate CanSubmit(b: Book, o: Order) { b.connected && o.id !in b.orders }

  function Submitted(b: Book, o: Order): Book {
    b.(orders := b.orders[o.id := o.(status := Working)])
  }

  /** The book after storing the outcome of a poll. */
  function AfterPoll(b: Book, r: Polled): Book {
    b.(orders := b.orders[r.order.id := r.order],
       fills := b.fills + (if r.fill.Some? then [r.fill.value] else []),
       equity := if r.fill.Some? && r.order.intent.OpenIntent? then b.equity - r.fill.value.commission else b.equity)
  }

  function AfterCancel(b: Book, id: Id): Book
    requires id in b.orders
  {
    if b.orders[id].IsTerminal() then b else b.(orders := b.orders[id := b.orders[id].(status := Cancelled)])
  }

  /** A cancelled order is over, with what it filled; an order that was over, and every other one, stays. */
  lemma CancelEndsTheOrder(b: Book, id: Id)
    requires id in b.orders
    ensures var next := AfterCancel(b, id);
      && next.orders.Keys == b.orders.Keys && next.orders[id].IsTerminal()
      && next.orders[id] == b.orders[id].(status := next.orders[id].status)
      && (b.orders[id].IsTerminal() ==> next == b)
      && forall other | other in b.orders && other != id :: next.orders[other] == b.orders[other]
  {
  }

  function Registered(b: Book, p: Position): Book { b.(positions := Upsert(b.positions, p)) }

  function Settled(b: Book, p: Position, pnl: real): Book {
    b.(positions := Upsert(b.positions, p), equity := b.equity + pnl)
  }

  class PaperBroker {
    const config: BrokerConfig
    const costs: CostModel
    var equity: real
    var orders: map<Id, Order>
    var fills: seq<Fill>
    var positions: seq<Position>
    var connected: bool

    function View(): Book
      reads this
    {
      Book(equity, orders, fills, positions, connected)
    }

    constructor (config: BrokerConfig, costs: CostModel)
      ensures this.config == config && this.costs == costs
      ensures View() == Book(config.startingEquity, map[], [], [], true)
    {
      this.config := config;
      this.costs := costs;
      equity, orders, fills, positions, connected := config.startingEquity, map[], [], [], true;
    }

    method Submit(order: Order) returns (error: Option<BrokerError>)
      modifies this
      ensures error.None? <==> CanSubmit(old(View()), order)
      ensures error.Some? ==> View() == old(View())
      ensures error.None? ==> View() == Submitted(old(View()), order)
    {
      if !connected {
        return Some(Disconnected);
      }
      if order.id in orders {
        return Some(DuplicateOrder);
      }
      orders := orders[order.id := order.(status := Working)];
      error := None;
    }

    method Poll(id: Id, chain: seq<Quote>, accepted: bool) returns (r: Option<Polled>)
      modifies this
      ensures r.Some? <==> id in old(orders)
      ensures r.None? ==> View() == old(View())
      ensures r.Some? ==> r.value == PollOrder(old(orders)[id], config, costs, chain, accepted)
      ensures r.Some? && old(orders)[id].id == id ==> View() == AfterPoll(old(View()), r.value)
    {
      hide QuotesFor, AchievablePrice, FillSize, RepriceOrExpire, Commission, MidPrice;
      if id !in orders {
        return None;  // unknown order
      }
      var order := orders[id];
      if order.IsTerminal() {
        r := Some(Polled(order, None));
        assert old(orders)[id := order] == old(orders);
        return;
      }
      PollFacts(order, config, costs, chain, accepted);
      var quotes := QuotesFor(chain, order.strategy.legs);
      if quotes.None? {
        r := Some(Polled(order.(status := Rejected), None));
        orders := orders[id := r.value.order];
        return;
      }
      var achievable := AchievablePrice(order.strategy.legs, quotes.value, costs);
      var size := FillSize(order, quotes.value, config);
      if achievable > order.limitPrice || !accepted || size < 1 {
        r := Some(Polled(RepriceOrExpire(order, config), None));
        orders := orders[id := r.value.order];
        return;
      }
      var recorded := RecordFill(order, costs, quotes.value, achievable, size);
      fills := fills + [recorded.fill.value];
      orders := orders[id := recorded.order];
      if order.intent.OpenIntent? {
        equity := equity - recorded.fill.value.commission;
      }
      r := Some(recorded);
    }

    method Cancel(id: Id) returns (error: Option<BrokerError>)
      modifies this
      ensures error == if id in old(orders) then None else Some(UnknownOrder)
      ensures View() == if id in old(orders) then AfterCancel(old(View()), id) else old(View())
    {
      if id !in orders {
        return Some(UnknownOrder);
      }
      if !orders[id].IsTerminal() {
        orders := orders[id := orders[id].(status := Cancelled)];
      }
      error := None;
    }

    method RegisterPosition(p: Position)
      modifies this
      ensures View() == Registered(old(View()), p)
    {
      positions := Upsert(positions, p);
    }

    method SettlePosition(p: Position, pnl: real)
      modifies this
      ensures View() == Settled(old(View()), p, pnl)
    {
      positions := Upsert(positions, p);
      equity := equity + pnl;
    }

    method Disconnect()
      modifies this
      ensures View() == old(View()).(connected := false)
    {
      connected := false;
    }

    method Reconnect()
      modifies this
      ensures View() == old(View()).(connected := true)
    {
      connected := true;
    }
  }
}
