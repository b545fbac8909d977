/** Slippage and commissions, and what opening and closing on one snapshot costs. */
module Costs {
  import opened Options
  import opened Market
  import opened Vectors

  datatype CostModel = CostModel(commissionPerContract: real, exchangeFeePerContract: real, spreadCapture: real,
                                 spreadMultiplier: real, adverseTicks: real, tickSize: real)
  {
    function FeePerContract(): real { commissionPerContract + exchangeFeePerContract }
  }

  /** Per-share slippage against the midpoint for one leg, one way. */
  function LegSlippage(q: Quote, model: CostModel): real {
    0.5 * Max(0.0, q.ask - q.bid) * model.spreadMultiplier * model.spreadCapture
    + model.adverseTicks * model.tickSize
  }

  /** Net price available now: buys pay the slippage, sells give it up. */
  function AchievablePrice(legs: seq<Leg>, quotes: seq<Quote>, model: CostModel): real
    requires |quotes| == |legs|
  {
    if legs == [] then 0.0
    else legs[0].quantity as real * SidePrice(quotes[0], model, legs[0].quantity > 0)
         + AchievablePrice(legs[1..], quotes[1..], model)
  }

  /** Net price to close the structure now: longs are sold, shorts bought back. */
  function ExitPrice(legs: seq<Leg>, quotes: seq<Quote>, model: CostModel): real
    requires |quotes| == |legs|
  {
    if legs == [] then 0.0
    else legs[0].quantity as real * SidePrice(quotes[0], model, !(legs[0].quantity > 0))
         + ExitPrice(legs[1..], quotes[1..], model)
  }

  function SidePrice(q: Quote, model: CostModel, buying: bool): real {
    if buying then q.Mid() + LegSlippage(q, model) else q.Mid() - LegSlippage(q, model)
  }

  function MidPrice(legs: seq<Leg>, quotes: seq<Quote>): real
    requires |quotes| == |legs|
  {
    if legs == [] then 0.0 else legs[0].quantity as real * quotes[0].Mid() + MidPrice(legs[1..], quotes[1..])
  }

  function Commission(legs: seq<Leg>, model: CostModel, contracts: int): real {
    ContractCount(legs) as real * model.FeePerContract() * contracts as real
  }

  /** Dollar slippage of crossing every leg once, per unit. */
  function EntrySlippage(legs: seq<Leg>, quotes: seq<Quote>, model: CostModel): real
    requires |quotes| == |legs|
  {
    if legs == [] then 0.0
    else Abs(legs[0].quantity) as real * MULTIPLIER * LegSlippage(quotes[0], model)
         + EntrySlippage(legs[1..], quotes[1..], model)
  }

  /** What the optimizer charges a candidate for opening and closing once. */
  function RoundTripCost(legs: seq<Leg>, quotes: seq<Quote>, model: CostModel, contracts: int): real
    requires |quotes| == |legs|
  {
    (2.0 * EntrySlippage(legs, quotes, model) + ContractCount(legs) as real * model.FeePerContract() * 2.0)
    * contracts as real
  }

  lemma OppositeSide(q: Quote, model: CostModel, quantity: int)
    requires quantity != 0
    ensures -quantity as real * SidePrice(q, model, -quantity > 0)
         == -(quantity as real * SidePrice(q, model, !(quantity > 0)))
  {
  }

  /** The broker's achievable price for the inverted structure is exactly minus the manager's exit
      price, for any structure and any quotes. */
  lemma {:induction false} ClosingPriceIsExitPrice(legs: seq<Leg>, quotes: seq<Quote>, model: CostModel)
    requires |quotes| == |legs|
    ensures AchievablePrice(InvertedLegs(legs), quotes, model) == -ExitPrice(legs, quotes, model)
  {
    hide SidePrice;
    if legs != [] {
      ClosingPriceIsExitPrice(legs[1..], quotes[1..], model);
      assert InvertedLegs(legs)[1..] == InvertedLegs(legs[1..]);
      OppositeSide(quotes[0], model, legs[0].quantity);
    }
  }

  lemma SpreadOnOneLeg(q: Quote, model: CostModel, quantity: int)
    requires quantity != 0
    ensures (quantity as real * SidePrice(q, model, quantity > 0)
             - quantity as real * SidePrice(q, model, !(quantity > 0))) * MULTIPLIER
         == 2.0 * (Abs(quantity) as real * MULTIPLIER * LegSlippage(q, model))
  {
    var s, x := LegSlippage(q, model), quantity as real;
    hide LegSlippage;
    if quantity > 0 {
      assert x * (q.Mid() + s) - x * (q.Mid() - s) == 2.0 * (x * s);
    } else {
      assert x * (q.Mid() - s) - x * (q.Mid() + s) == -2.0 * (x * s);
    }
  }

  /** Opening and immediately closing loses the slippage of crossing every leg twice. */
  lemma {:induction false} OpenCloseSpread(legs: seq<Leg>, quotes: seq<Quote>, model: CostModel)
    requires |quotes| == |legs|
    ensures (AchievablePrice(legs, quotes, model) - ExitPrice(legs, quotes, model)) * MULTIPLIER
         == 2.0 * EntrySlippage(legs, quotes, model)
  {
    hide SidePrice, LegSlippage;
    if legs != [] {
      OpenCloseSpread(legs[1..], quotes[1..], model);
      SpreadOnOneLeg(quotes[0], model, legs[0].quantity);
    }
  }

  lemma {:induction false} InvertedContractCount(legs: seq<Leg>)
    ensures ContractCount(InvertedLegs(legs)) == ContractCount(legs)
  {
    if legs != [] {
      InvertedContractCount(legs[1..]);
      assert InvertedLegs(legs)[1..] == InvertedLegs(legs[1..]);
    }
  }

  lemma ScaleRoundTrip(spread: real, slippage: real, fees: real, n: real)
    requires spread == -2.0 * slippage
    ensures spread * n - fees * n - fees * n == -((2.0 * slippage + fees * 2.0) * n)
  {
  }

  /** Opened at the achievable price and closed at the exit price of the same quotes, with the
      commission charged both ways, a position realises exactly minus the round-trip cost. */
  lemma RoundTripIsExact(legs: seq<Leg>, quotes: seq<Quote>, model: CostModel, contracts: int)
    requires |quotes| == |legs|
    ensures (ExitPrice(legs, quotes, model) - AchievablePrice(legs, quotes, model)) * MULTIPLIER * contracts as real
            - Commission(legs, model, contracts) - Commission(InvertedLegs(legs), model, contracts)
         == -RoundTripCost(legs, quotes, model, contracts)
  {
    hide ExitPrice, AchievablePrice, EntrySlippage, ContractCount;
    OpenCloseSpread(legs, quotes, model);
    InvertedContractCount(legs);
    ScaleRoundTrip((ExitPrice(legs, quotes, model) - AchievablePrice(legs, quotes, model)) * MULTIPLIER,
                   EntrySlippage(legs, quotes, model), ContractCount(legs) as real * model.FeePerContract(),
                                 contracts as real);
  }

  // ---------------------------------------------------------------- between the midpoint and the touch

  /** Buys at the ask and sells at the bid; a crossed quote trades at its midpoint. */
  function Touch(q: Quote, buying: bool): real {
    if q.ask <= q.bid then q.Mid() else if buying then q.ask else q.bid
  }

  /** Net price with every leg at the touch. */
  function TouchPrice(legs: seq<Leg>, quotes: seq<Quote>): real
    requires |quotes| == |legs|
  {
    if legs == [] then 0.0
    else legs[0].quantity as real * Touch(quotes[0], legs[0].quantity > 0) + TouchPrice(legs[1..], quotes[1..])
  }

  /** The share of the half-spread paid. */
  function Share(model: CostModel): real { model.spreadMultiplier * model.spreadCapture }

  function TicksPaid(model: CostModel): real { model.adverseTicks * model.tickSize }

  lemma SlippageFromTouch(q: Quote, model: CostModel, buying: bool)
    ensures var away := if buying then Touch(q, true) - q.Mid() else q.Mid() - Touch(q, false);
      LegSlippage(q, model) == Product(Share(model), away) + TicksPaid(model)
  {
    var half := 0.5 * Max(0.0, q.ask - q.bid);
    assert half == if buying then Touch(q, true) - q.Mid() else q.Mid() - Touch(q, false);
    Reassociate(half, model.spreadMultiplier, model.spreadCapture);
  }

  lemma Reassociate(a: real, b: real, c: real)
    ensures a * b * c == Product(b * c, a)
  {
  }

  lemma LegFromTouch(q: Quote, model: CostModel, quantity: int)
    requires quantity != 0
    ensures Product(quantity as real, SidePrice(q, model, quantity > 0))
         == Product(quantity as real, q.Mid())
            + Product(Share(model),
                      Product(quantity as real, Touch(q, quantity > 0)) - Product(quantity as real, q.Mid()))
            + Product(Abs(quantity) as real, TicksPaid(model))
  {
    var buying, x, mid := quantity > 0, quantity as real, q.Mid();
    var t, n := Touch(q, buying), Abs(quantity) as real;
    SlippageFromTouch(q, model, buying);
    hide LegSlippage, Touch, Share, TicksPaid;
    var away := if buying then t - mid else mid - t;
    assert n == if buying then x else -x;
    Spread(n, Share(model), away, TicksPaid(model), mid);
    if buying {
      SpreadBack(x, t, mid);
    } else {
      SpreadBack(-x, mid, t);
    }
  }

  lemma Spread(n: real, share: real, away: real, ticks: real, mid: real)
    ensures n * (Product(share, away) + ticks) == Product(share, n * away) + n * ticks
  {
    assert n * Product(share, away) == share * (n * away);
  }

  lemma SpreadBack(x: real, a: real, b: real)
    ensures x * (a - b) == x * a - x * b
  {
  }

  lemma Unfolded(legs: seq<Leg>, quotes: seq<Quote>, model: CostModel)
    requires |quotes| == |legs| > 0
    ensures var x, q := legs[0].quantity as real, quotes[0];
      && AchievablePrice(legs, quotes, model)
         == Product(x, SidePrice(q, model, legs[0].quantity > 0)) + AchievablePrice(legs[1..], quotes[1..], model)
      && MidPrice(legs, quotes) == Product(x, q.Mid()) + MidPrice(legs[1..], quotes[1..])
      && TouchPrice(legs, quotes) == Product(x, Touch(q, legs[0].quantity > 0)) + TouchPrice(legs[1..], quotes[1..])
      && ContractCount(legs) as real == Abs(legs[0].quantity) as real + ContractCount(legs[1..]) as real
  {
  }

  /** The price available lies from the midpoint toward the touch by the share of the spread paid, plus the
      adverse ticks on every contract. */
  lemma {:induction false} AchievableIsBetween(legs: seq<Leg>, quotes: seq<Quote>, model: CostModel)
    requires |quotes| == |legs|
    ensures AchievablePrice(legs, quotes, model)
         == MidPrice(legs, quotes) + Product(Share(model), TouchPrice(legs, quotes) - MidPrice(legs, quotes))
            + Product(ContractCount(legs) as real, TicksPaid(model))
  {
    hide SidePrice, Touch, Share, TicksPaid;
    if legs != [] {
      hide Product, AchievablePrice, MidPrice, TouchPrice, ContractCount;
      AchievableIsBetween(legs[1..], quotes[1..], model);
      Unfolded(legs, quotes, model);
      LegFromTouch(quotes[0], model, legs[0].quantity);
      var x, q := legs[0].quantity as real, quotes[0];
      ProductDistributes(Share(model), Product(x, Touch(q, legs[0].quantity > 0)) - Product(x, q.Mid()),
                         TouchPrice(legs[1..], quotes[1..]) - MidPrice(legs[1..], quotes[1..]));
      Adds(Abs(legs[0].quantity) as real, ContractCount(legs[1..]) as real, TicksPaid(model));
    }
  }

  lemma Adds(a: real, b: real, k: real)
    ensures Product(a + b, k) == Product(a, k) + Product(b, k)
  {
  }

  lemma SlippageOfLeg(q: Quote, model: CostModel, quantity: int)
    ensures Abs(quantity) as real * MULTIPLIER * LegSlippage(q, model)
         == MULTIPLIER * (quantity as real * SidePrice(q, model, quantity > 0) - quantity as real * q.Mid())
  {
    var s, x, mid := LegSlippage(q, model), quantity as real, q.Mid();
    hide LegSlippage;
    if quantity > 0 {
      assert x * (mid + s) - x * mid == x * s;
    } else {
      assert x * (mid - s) - x * mid == (-x) * s;
    }
  }

  /** The slippage of an entry is what the achievable price concedes against the midpoint. */
  lemma {:induction false} EntrySlippageIsConceded(legs: seq<Leg>, quotes: seq<Quote>, model: CostModel)
    requires |quotes| == |legs|
    ensures EntrySlippage(legs, quotes, model)
         == MULTIPLIER * (AchievablePrice(legs, quotes, model) - MidPrice(legs, quotes))
  {
    hide SidePrice, LegSlippage;
    if legs != [] {
      EntrySlippageIsConceded(legs[1..], quotes[1..], model);
      SlippageOfLeg(quotes[0], model, legs[0].quantity);
    }
  }

  /** A round trip takes, each way and of every unit, the concession against the midpoint and the commission
      and exchange fee of every contract. */
  lemma RoundTripTakes(legs: seq<Leg>, quotes: seq<Quote>, model: CostModel, contracts: int)
    requires |quotes| == |legs|
    ensures RoundTripCost(legs, quotes, model, contracts)
         == Product(contracts as real,
                    2.0 * (MULTIPLIER * (AchievablePrice(legs, quotes, model) - MidPrice(legs, quotes))
                           + Product(ContractCount(legs) as real,
                                     model.commissionPerContract + model.exchangeFeePerContract)))
  {
    hide AchievablePrice, MidPrice, EntrySlippage, ContractCount;
    EntrySlippageIsConceded(legs, quotes, model);
    Twice(EntrySlippage(legs, quotes, model), ContractCount(legs) as real, model.FeePerContract(), contracts as real);
  }

  lemma Twice(slippage: real, count: real, fee: real, n: real)
    ensures (2.0 * slippage + count * fee * 2.0) * n == Product(n, 2.0 * (slippage + Product(count, fee)))
  {
  }

  // ---------------------------------------------------------------- two legs, free of costs

  const FREE := CostModel(0.0, 0.0, 0.0, 1.0, 0.0, 0.01)

  /** A chain of one quote for each of two legs, bid and asked at one price. */
  ghost predicate TwoQuoted(legs: seq<Leg>, chain: seq<Quote>, first: real, second: real) {
    && |legs| == 2 && |chain| == 2 && first > 0.0 && second > 0.0
    && chain[0].IsFor(legs[0]) && chain[1].IsFor(legs[1]) && !chain[0].IsFor(legs[1])
    && chain[0].bid == first && chain[0].ask == first && chain[1].bid == second && chain[1].ask == second
  }

  lemma TwoQuotes(legs: seq<Leg>, chain: seq<Quote>, first: real, second: real)
    requires TwoQuoted(legs, chain, first, second)
    ensures QuotesFor(chain, legs) == Some(chain)
  {
    assert QuoteFor(chain, legs[0]) == Some(chain[0]) && QuoteFor(chain, legs[1]) == Some(chain[1]) by {
      assert chain[1..][0] == chain[1];
    }
    assert chain[0].Mid() == first && chain[1].Mid() == second;
    hide QuoteFor, Quote.Mid;
    assert legs[1..][1..] == [] && QuotesFor(chain, []) == Some([]);
    assert QuotesFor(chain, legs[1..]) == Some([chain[1]] + []);
    assert [chain[0]] + ([chain[1]] + []) == chain;
  }

  lemma TwoPrices(legs: seq<Leg>, chain: seq<Quote>, first: real, second: real)
    requires TwoQuoted(legs, chain, first, second)
    ensures AchievablePrice(legs, chain, FREE) == legs[0].quantity as real * first + legs[1].quantity as real * second
    ensures ExitPrice(legs, chain, FREE) == legs[0].quantity as real * first + legs[1].quantity as real * second
  {
    FreeSide(chain[0], first);
    FreeSide(chain[1], second);
    hide SidePrice;
    var lastLeg, lastQuote := legs[1..], chain[1..];
    assert lastLeg[1..] == [] && lastQuote[1..] == [] && lastLeg[0] == legs[1] && lastQuote[0] == chain[1];
    assert AchievablePrice(lastLeg, lastQuote, FREE) == legs[1].quantity as real * second + 0.0;
    assert ExitPrice(lastLeg, lastQuote, FREE) == legs[1].quantity as real * second + 0.0;
  }

  lemma FreeSide(q: Quote, price: real)
    requires q.bid == price && q.ask == price
    ensures SidePrice(q, FREE, true) == price && SidePrice(q, FREE, false) == price
  {
  }
}
