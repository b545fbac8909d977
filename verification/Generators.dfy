/** The 21 family generators, and the proof that no parameterization of any of them can
    leave the defined-risk universe. */
module Generators {
  import opened Options
  import opened Coverage
  import opened Payoff
  import opened Market
  import opened Vectors

  /** What a generator reads: the chain, the spot, the two expirations and the forecast's anchors. */
  datatype Context = Context(chain: seq<Quote>, spot: real, expiration: Instant, farExpiration: Option<Instant>,
                             aggressiveness: real, quantile: Option<real -> real>, pinStrike: Option<real>)
  {
    /** Positive strikes, and at least one of them quoted on both rights at the near expiration. */
    ghost predicate Listed() {
      (forall q | q in chain :: q.strike > 0.0) && Strikes() != []
    }

    function StrikesOf(right: Right): set<real> {
      set q | q in chain && q.expiration == expiration && q.right == right :: q.strike
    }

    function Strikes(): (r: seq<real>)
      ensures Increasing(r)
    {
      QuotedOnBoth(chain)
    }

    /** `sorted(calls & puts)`, gathered along the chain. */
    function QuotedOnBoth(quotes: seq<Quote>): (r: seq<real>)
      ensures Increasing(r)
      ensures forall k :: k in r <==>
        exists q :: q in quotes && q.strike == k && k in StrikesOf(Call) && k in StrikesOf(Put)
    {
      if quotes == [] then []
      else
        var rest := QuotedOnBoth(quotes[1..]);
        var k := quotes[0].strike;
        assert forall q :: q in quotes <==> q == quotes[0] || q in quotes[1..];
        if k in StrikesOf(Call) && k in StrikesOf(Put) then Insert(k, rest) else rest
    }

    /** The narrowest gap between listed strikes. */
    function StrikeStep(): (step: real)
      ensures step > 0.0
    {
      if |Strikes()| < 2 then 1.0 else NarrowestGap(Strikes())
    }

    function NarrowestGap(ks: seq<real>): (gap: real)
      requires Increasing(ks) && |ks| >= 2
      ensures gap > 0.0
    {
      var first := ks[1] - ks[0];
      if |ks| == 2 then first else Min(first, NarrowestGap(ks[1..]))
    }

    /** Nearest listed strike, the lower one on a tie. */
    function Snap(target: real): (k: real)
      requires Listed()
      ensures k in Strikes()
    {
      Nearest(Strikes(), target)
    }

    function Nearest(ks: seq<real>, target: real): (k: real)
      requires ks != []
      ensures k in ks
    {
      if target <= ks[0] || |ks| == 1 then ks[0]
      else if target <= ks[1] then (if target - ks[0] <= ks[1] - target then ks[0] else ks[1])
      else
        var k := Nearest(ks[1..], target);
        assert k in ks[1..];
        k
    }

    function Atm(): real
      requires Listed()
    {
      Snap(spot)
    }

    function StrikeAtFinishProbability(probability: real, right: Right): Option<real>
      requires Listed()
    {
      if quantile.None? then None
      else
        var tau := if right == Call then 1.0 - probability else probability;
        Some(Snap(quantile.value(Min(Max(tau, 0.001), 0.999))))
    }

    function Lookup(quotes: seq<Quote>, key: LegKey): (q: Option<Quote>)
      ensures q.Some? ==> q.value in quotes && (q.value.expiration, q.value.strike, q.value.right) == key
    {
      if quotes == [] then None
      else
        var last := quotes[|quotes| - 1];
        if (last.expiration, last.strike, last.right) == key then Some(last) else Lookup(quotes[..|quotes| - 1], key)
    }

    /** A priced leg, or none when the contract is not quotable. */
    function MakeLeg(spec: Spec): (leg: Option<Leg>)
      requires Listed()
      ensures leg.Some? ==> spec.Matches(leg.value)
    {
      if spec.quantity == 0 then None
      else
        var quote := Lookup(chain, (spec.expiry, spec.strike, spec.right));
        if quote.None? || quote.value.Mid() <= 0.0 || quote.value.ask < quote.value.bid then None
        else
          Some(LegRecord(spec.expiry, spec.strike, spec.right, spec.quantity,
                         ExecutionPrice(quote.value, spec.quantity > 0), quote.value.iv))
    }

    function ExecutionPrice(q: Quote, buying: bool): (price: real)
      ensures price >= 0.01
    {
      var mid := q.Mid();
      Max(0.01, if buying then mid + aggressiveness * Max(0.0, q.ask - mid)
                else mid - aggressiveness * Max(0.0, mid - q.bid))
    }

    /** All or nothing: a structure missing one leg is a different structure. */
    function MakeLegs(specs: seq<Spec>): (legs: Option<seq<Leg>>)
      requires Listed()
      ensures legs.Some? ==>
        |legs.value| == |specs| && forall i | 0 <= i < |specs| :: specs[i].Matches(legs.value[i])
    {
      if specs == [] then Some([])
      else
        var leg, rest := MakeLeg(specs[0]), MakeLegs(specs[1..]);
        if leg.None? || rest.None? then None else Some([leg.value] + rest.value)
    }
  }

  function Distance(a: real, b: real): real { if a < b then b - a else a - b }

  /** Snapping returns the nearest listed strike, the lower of two equally near. */
  lemma SnapIsNearest(ctx: Context, target: real, k: real)
    requires ctx.Listed() && k in ctx.Strikes()
    ensures Distance(ctx.Snap(target), target) <= Distance(k, target)
    ensures Distance(ctx.Snap(target), target) == Distance(k, target) ==> ctx.Snap(target) <= k
  {
    NearestIsNearest(ctx, ctx.Strikes(), target, k);
  }

  lemma {:induction false} NearestIsNearest(ctx: Context, ks: seq<real>, target: real, k: real)
    requires Increasing(ks) && k in ks
    ensures var n := ctx.Nearest(ks, target);
      Distance(n, target) <= Distance(k, target) && (Distance(n, target) == Distance(k, target) ==> n <= k)
  {
    var i :| 0 <= i < |ks| && ks[i] == k;
    if target > ks[0] && |ks| > 1 && target > ks[1] {
      if i > 0 { assert ks[1..][i - 1] == k; }
      NearestIsNearest(ctx, ks[1..], target, if i > 0 then k else ks[1]);
    }
  }

  /** The strikes are those the chain quotes at the near expiration as a call and as a put. */
  lemma StrikesAreQuotedOnBoth(ctx: Context, k: real)
    ensures k in ctx.Strikes() <==> IsQuoted(ctx, Call, k) && IsQuoted(ctx, Put, k)
    ensures |ctx.Strikes()| < 2 ==> ctx.StrikeStep() == 1.0
  {
    hide Context.QuotedOnBoth;
  }

  predicate IsQuoted(ctx: Context, right: Right, k: real) {
    exists q :: q in ctx.chain && q.expiration == ctx.expiration && q.right == right && q.strike == k
  }

  /** The strike step is the least gap between neighbouring listed strikes. */
  lemma StrikeStepIsNarrowest(ctx: Context) returns (i: nat)
    requires |ctx.Strikes()| >= 2
    ensures var ks := ctx.Strikes();
      && i + 1 < |ks| && ks[i + 1] - ks[i] == ctx.StrikeStep()
      && forall j | 0 <= j < |ks| - 1 :: ctx.StrikeStep() <= ks[j + 1] - ks[j]
  {
    i := GapIsNarrowest(ctx, ctx.Strikes());
  }

  lemma {:induction false} GapIsNarrowest(ctx: Context, ks: seq<real>) returns (i: nat)
    requires Increasing(ks) && |ks| >= 2
    ensures i + 1 < |ks| && ks[i + 1] - ks[i] == ctx.NarrowestGap(ks)
    ensures forall j | 0 <= j < |ks| - 1 :: ctx.NarrowestGap(ks) <= ks[j + 1] - ks[j]
  {
    i := 0;
    if |ks| > 2 {
      var k := GapIsNarrowest(ctx, ks[1..]);
      forall j | 0 <= j < |ks| - 1 ensures ctx.NarrowestGap(ks) <= ks[j + 1] - ks[j] {
        if j > 0 { assert ks[1..][j] - ks[1..][j - 1] == ks[j + 1] - ks[j]; }
      }
      if ctx.NarrowestGap(ks) != ks[1] - ks[0] {
        i := k + 1;
      }
    }
  }

  /** An execution price lies between the midpoint and the touch, or is the one-cent floor. */
  lemma ExecutionPriceIsInside(ctx: Context, q: Quote)
    requires 0.0 <= ctx.aggressiveness <= 1.0 && q.bid <= q.ask
    ensures Max(0.01, q.Mid()) <= ctx.ExecutionPrice(q, true) <= Max(0.01, q.ask)
    ensures Max(0.01, q.bid) <= ctx.ExecutionPrice(q, false) <= Max(0.01, q.Mid())
  {
    var half := q.ask - q.Mid();
    ProductNonNegative(ctx.aggressiveness, half);
    ProductNonNegative(1.0 - ctx.aggressiveness, half);
  }

  /** A list of legs is built exactly when each of its legs is. */
  lemma {:induction false} MakeLegsIsAllOrNothing(ctx: Context, specs: seq<Spec>)
    requires ctx.Listed()
    ensures ctx.MakeLegs(specs).Some? <==> forall i | 0 <= i < |specs| :: ctx.MakeLeg(specs[i]).Some?
    ensures ctx.MakeLegs(specs).Some? ==>
      forall i | 0 <= i < |specs| :: ctx.MakeLeg(specs[i]) == Some(ctx.MakeLegs(specs).value[i])
  {
    if specs != [] {
      MakeLegsIsAllOrNothing(ctx, specs[1..]);
      assert specs == [specs[0]] + specs[1..];
    }
  }

  /** A leg is quotable exactly when its contract's last quote has a positive midpoint and is not crossed. */
  lemma MakeLegExactlyWhen(ctx: Context, spec: Spec)
    requires ctx.Listed()
    ensures ctx.MakeLeg(spec).Some? <==>
      && spec.quantity != 0
      && exists i ::
        0 <= i < |ctx.chain| && IsLastFor(ctx.chain, i, spec.Key()) && ctx.chain[i].Mid() > 0.0
        && ctx.chain[i].bid <= ctx.chain[i].ask
    ensures ctx.MakeLeg(spec).Some? ==>
      exists i :: 0 <= i < |ctx.chain| && IsLastFor(ctx.chain, i, spec.Key())
        && ctx.MakeLeg(spec).value.entryPrice == ctx.ExecutionPrice(ctx.chain[i], spec.quantity > 0)
        && ctx.MakeLeg(spec).value.entryIv == ctx.chain[i].iv
  {
    LookupIsLast(ctx, ctx.chain, spec.Key());
  }

  /** Entry `i` is the contract's, and no later entry is. */
  ghost predicate IsLastFor(quotes: seq<Quote>, i: nat, key: LegKey)
    requires i < |quotes|
  {
    && (quotes[i].expiration, quotes[i].strike, quotes[i].right) == key
    && forall j | i < j < |quotes| :: (quotes[j].expiration, quotes[j].strike, quotes[j].right) != key
  }

  lemma {:induction false} LookupIsLast(ctx: Context, quotes: seq<Quote>, key: LegKey)
    ensures ctx.Lookup(quotes, key).Some? ==> exists i :: 0 <= i < |quotes| && IsLastFor(quotes, i, key)
    ensures forall i | 0 <= i < |quotes| && IsLastFor(quotes, i, key) :: ctx.Lookup(quotes, key) == Some(quotes[i])
  {
    if quotes != [] {
      var front, n := quotes[..|quotes| - 1], |quotes| - 1;
      LookupIsLast(ctx, front, key);
      if (quotes[n].expiration, quotes[n].strike, quotes[n].right) == key {
        assert IsLastFor(quotes, n, key);
      } else {
        forall i | 0 <= i < n ensures IsLastFor(quotes, i, key) <==> IsLastFor(front, i, key) {
          LaterDoNotMatter(quotes, i, key);
        }
      }
    }
  }

  lemma LaterDoNotMatter(quotes: seq<Quote>, i: nat, key: LegKey)
    requires i < |quotes| - 1
    requires (quotes[|quotes| - 1].expiration, quotes[|quotes| - 1].strike, quotes[|quotes| - 1].right) != key
    ensures IsLastFor(quotes, i, key) <==> IsLastFor(quotes[..|quotes| - 1], i, key)
  {
    var front := quotes[..|quotes| - 1];
    if IsLastFor(quotes, i, key) {
      forall j | i < j < |front| ensures (front[j].expiration, front[j].strike, front[j].right) != key {
        assert front[j] == quotes[j];
      }
    }
    if IsLastFor(front, i, key) {
      forall j | i < j < |quotes| ensures (quotes[j].expiration, quotes[j].strike, quotes[j].right) != key {
        if j < |front| { assert front[j] == quotes[j]; }
      }
    }
  }

  datatype Spec = Spec(strike: real, right: Right, quantity: int, expiry: Instant) {
    predicate Matches(leg: Leg) {
      leg.strike == strike && leg.right == right && leg.quantity == quantity && leg.expiry == expiry
    }

    function Key(): LegKey { (expiry, strike, right) }

    function Term(other: Right, from: Instant): int {
      if right == other && expiry >= from then quantity else 0
    }
  }

  // ---------------------------------------------------------------- sound leg lists

  function SpecSuffix(specs: seq<Spec>, right: Right, from: Instant): int
    requires |specs| <= 4
  {
    (if |specs| > 0 then specs[0].Term(right, from) else 0)
    + (if |specs| > 1 then specs[1].Term(right, from) else 0)
    + (if |specs| > 2 then specs[2].Term(right, from) else 0)
    + (if |specs| > 3 then specs[3].Term(right, from) else 0)
  }

  ghost predicate Sound(specs: seq<Spec>, calendar: bool) {
    && 2 <= |specs| <= 4
    && (forall i, j | 0 <= i < j < |specs| :: specs[i].Key() != specs[j].Key())
    && (forall right, from: Instant :: SpecSuffix(specs, right, from) >= 0)
    && (!calendar ==> forall i | 0 <= i < |specs| :: specs[i].expiry == specs[0].expiry)
  }

  lemma SuffixFrom(specs: seq<Spec>, legs: seq<Leg>, right: Right, from: Instant, i: nat)
    requires |legs| == |specs| && i <= |legs| && forall i | 0 <= i < |specs| :: specs[i].Matches(legs[i])
    ensures SuffixQuantity(legs[i..], right, from)
         == if i < |legs| then specs[i].Term(right, from) + SuffixQuantity(legs[i + 1..], right, from) else 0
  {
    if i < |legs| {
      assert legs[i..][0] == legs[i] && legs[i..][1..] == legs[i + 1..];
    }
  }

  lemma SuffixOfSpecs(specs: seq<Spec>, legs: seq<Leg>, right: Right, from: Instant)
    requires |legs| == |specs| <= 4 && forall i | 0 <= i < |specs| :: specs[i].Matches(legs[i])
    ensures SuffixQuantity(legs, right, from) == SpecSuffix(specs, right, from)
  {
    hide SuffixQuantity, Spec.Term;
    assert legs[0..] == legs;
    SuffixFrom(specs, legs, right, from, 0);
    if |legs| > 0 { SuffixFrom(specs, legs, right, from, 1); }
    if |legs| > 1 { SuffixFrom(specs, legs, right, from, 2); }
    if |legs| > 2 { SuffixFrom(specs, legs, right, from, 3); }
    if |legs| > 3 { SuffixFrom(specs, legs, right, from, 4); }
  }

  lemma OneExpiry(s: Strategy, e: Instant)
    requires forall l | l in s.legs :: l.expiry == e
    ensures !IsMultiExpiry(s)
  {
    var es := Expiries(s.legs);
    assert es[0] in es && es[|es| - 1] in es;
  }

  lemma SoundSpecsAreAdmissible(family: Family, specs: seq<Spec>, legs: seq<Leg>)
    requires Sound(specs, family.IsCalendarized())
    requires |legs| == |specs| && forall i | 0 <= i < |specs| :: specs[i].Matches(legs[i])
    ensures Admissible(StructureRecord(family, legs))
  {
    hide Expiries;
    var s: Strategy := StructureRecord(family, legs);
    forall right, from: Instant ensures SuffixQuantity(legs, right, from) >= 0 {
      SuffixOfSpecs(specs, legs, right, from);
      assert SpecSuffix(specs, right, from) >= 0;
    }
    assert NoDuplicateLegs(legs) by {
      forall i, j | 0 <= i < j < |legs| ensures legs[i].Key() != legs[j].Key() {
        assert legs[i].Key() == specs[i].Key() && legs[j].Key() == specs[j].Key();
      }
    }
    if !family.IsCalendarized() {
      OneExpiry(s, specs[0].expiry);
    }
  }

  // ---------------------------------------------------------------- yielding structures

  /** Every structure belongs to the family and satisfies the defined-risk rule. */
  ghost predicate AllAdmissible(out: seq<Strategy>, family: Family) {
    forall s | s in out :: s.family == family && Admissible(s)
  }

  function Yield(ctx: Context, family: Family, specs: seq<Spec>): (out: seq<Strategy>)
    requires ctx.Listed() && Sound(specs, family.IsCalendarized())
    ensures AllAdmissible(out, family)
  {
    var legs := ctx.MakeLegs(specs);
    if legs.None? then []
    else
      SoundSpecsAreAdmissible(family, specs, legs.value);
      [StructureRecord(family, legs.value)]
  }

  /** `for x in xs: for y in ys: ...`. */
  function ForEach<A, B>(ctx: Context, family: Family, xs: seq<A>, ys: seq<B>,
      build: (A, B) -> seq<Spec>): (out: seq<Strategy>)
    requires ctx.Listed()
    requires forall x, y | x in xs && y in ys :: Sound(build(x, y), family.IsCalendarized())
    ensures AllAdmissible(out, family)
  {
    if xs == [] then []
    else
      assert xs[0] in xs && forall x | x in xs[1..] :: x in xs;
      ForInner(ctx, family, xs[0], ys, build) + ForEach(ctx, family, xs[1..], ys, build)
  }

  function ForInner<A, B>(ctx: Context, family: Family, x: A, ys: seq<B>,
      build: (A, B) -> seq<Spec>): (out: seq<Strategy>)
    requires ctx.Listed()
    requires forall y | y in ys :: Sound(build(x, y), family.IsCalendarized())
    ensures AllAdmissible(out, family)
  {
    if ys == [] then []
    else
      assert ys[0] in ys && forall y | y in ys[1..] :: y in ys;
      Yield(ctx, family, build(x, ys[0])) + ForInner(ctx, family, x, ys[1..], build)
  }

  /** A positive number of steps. */
  function Width(n: pos, step: real): (w: real)
    requires step > 0.0
    ensures w > 0.0
  {
    n as real * step
  }

  type pos = n: nat | n > 0 witness 1

  /** A signed number of steps. */
  function Offset(n: int, step: real): real { n as real * step }

  const NARROW_WIDTHS: seq<pos> := [1, 2, 3, 5]
  const WING_WIDTHS: seq<pos> := [2, 3, 5]
  const SHORT_PROBABILITIES: seq<real> := [0.10, 0.16, 0.25]

  // ---------------------------------------------------------------- anchors

  function Anchors(ctx: Context): seq<real>
    requires ctx.Listed()
  {
    var step, atm := ctx.StrikeStep(), ctx.Atm();
    SortedDistinct([ctx.Snap(atm - step), ctx.Snap(atm), ctx.Snap(atm + step)] + Median(ctx))
  }

  function Median(ctx: Context): seq<real>
    requires ctx.Listed()
  {
    if ctx.quantile.Some? then [ctx.Snap(ctx.quantile.value(0.5))] else []
  }

  function ButterflyCentres(ctx: Context): seq<real>
    requires ctx.Listed()
  {
    SortedDistinct([ctx.Atm()] + (if ctx.pinStrike.Some? then [ctx.Snap(ctx.pinStrike.value)] else []) + Median(ctx))
  }

  /** Short strikes at the given finish probabilities that lie strictly out of the money. */
  function ShortStrikes(ctx: Context, probabilities: seq<real>, right: Right): seq<real>
    requires ctx.Listed()
  {
    if probabilities == [] then []
    else
      var short := ctx.StrikeAtFinishProbability(probabilities[0], right);
      (if short.None? || (if right == Put then short.value >= ctx.spot else short.value <= ctx.spot) then []
       else [short.value])
      + ShortStrikes(ctx, probabilities[1..], right)
  }

  datatype ShortRecord = Shorts(put: real, call: real)
  type Shorts = s: ShortRecord | s.put < s.call witness ShortRecord.Shorts(0.0, 1.0)

  /** Put and call shorts at paired probabilities, kept only when the put strike is the lower. */
  function ShortPairs(ctx: Context, probabilities: seq<(real, real)>): seq<Shorts>
    requires ctx.Listed()
  {
    if probabilities == [] then []
    else
      var put := ctx.StrikeAtFinishProbability(probabilities[0].0, Put);
      var call := ctx.StrikeAtFinishProbability(probabilities[0].1, Call);
      (if put.None? || call.None? || put.value >= call.value then [] else [ShortRecord.Shorts(put.value, call.value)])
      + ShortPairs(ctx, probabilities[1..])
  }

  // ---------------------------------------------------------------- shapes

  function Vertical(long: real, short: real, right: Right, longFirst: bool, e: Instant): (specs: seq<Spec>)
    requires long != short
    ensures Sound(specs, false)
  {
    if longFirst then [Spec(long, right, 1, e), Spec(short, right, -1, e)]
    else [Spec(short, right, -1, e), Spec(long, right, 1, e)]
  }

  /** One long below, two short in the middle, one long above (or mirrored). */
  function Butterfly(a: real, centre: real, b: real, right: Right, e: Instant): (specs: seq<Spec>)
    requires a < centre < b || b < centre < a
    ensures Sound(specs, false)
  {
    [Spec(a, right, 1, e), Spec(centre, right, -2, e), Spec(b, right, 1, e)]
  }

  function Iron(longPut: real, shortPut: real, shortCall: real, longCall: real, e: Instant): (specs: seq<Spec>)
    requires longPut < shortPut && shortCall < longCall
    ensures Sound(specs, false)
  {
    [Spec(longPut, Put, 1, e), Spec(shortPut, Put, -1, e), Spec(shortCall, Call, -1, e), Spec(longCall, Call, 1, e)]
  }

  function LongVolatility(call: real, put: real, e: Instant): (specs: seq<Spec>)
    ensures Sound(specs, false)
  {
    [Spec(call, Call, 1, e), Spec(put, Put, 1, e)]
  }

  function Backspread(short: real, long: real, right: Right, e: Instant): (specs: seq<Spec>)
    requires short != long
    ensures Sound(specs, false)
  {
    [Spec(short, right, -1, e), Spec(long, right, 2, e)]
  }

  /** Short the near expiration, long the far one. */
  function Diagonal(short: real, long: real, right: Right, near: Instant, far: Instant): (specs: seq<Spec>)
    requires near < far
    ensures Sound(specs, true)
  {
    [Spec(short, right, -1, near), Spec(long, right, 1, far)]
  }

  function DoubleDiagonal(call: real, put: real, near: Instant, far: Instant): (specs: seq<Spec>)
    requires near < far
    ensures Sound(specs, true)
  {
    [Spec(call, Call, -1, near), Spec(call, Call, 1, far), Spec(put, Put, -1, near), Spec(put, Put, 1, far)]
  }

  // ---------------------------------------------------------------- generators

  function Generate(family: Family, ctx: Context): (out: seq<Strategy>)
    requires ctx.Listed()
    ensures AllAdmissible(out, family)
  {
    match family
    case BullCallDebitSpread | BearPutDebitSpread => DebitSpreads(ctx, family)
    case BullPutCreditSpread | BearCallCreditSpread => CreditSpreads(ctx, family)
    case CallButterfly | PutButterfly => Butterflies(ctx, family)
    case BrokenWingCallButterfly | BrokenWingPutButterfly => BrokenWings(ctx, family)
    case IronCondor | AsymmetricCondor | BrokenWingCondor => Condors(ctx, family)
    case IronButterfly => IronButterflies(ctx)
    case LongStraddle => Straddles(ctx)
    case LongStrangle => Strangles(ctx)
    case CallBackspread | PutBackspread => Backspreads(ctx, family)
    case BullishCalendar | BearishCalendar => Calendars(ctx, family)
    case DoubleCalendar => DoubleCalendars(ctx)
    case BullishDiagonal | BearishDiagonal => Diagonals(ctx, family)
  }

  function DebitSpreads(ctx: Context, family: Family): (out: seq<Strategy>)
    requires ctx.Listed() && (family.BullCallDebitSpread? || family.BearPutDebitSpread?)
    ensures AllAdmissible(out, family)
  {
    hide Sound, Width, Vertical;
    ForEach(ctx, family, Anchors(ctx), NARROW_WIDTHS, DebitSpread(family, ctx.StrikeStep(), ctx.expiration))
  }

  function DebitSpread(family: Family, step: real, e: Instant): (real, pos) -> seq<Spec>
    requires step > 0.0
  {
    (anchor: real, n: pos) =>
      if family.BullCallDebitSpread? then Vertical(anchor, anchor + Width(n, step), Call, true, e)
      else Vertical(anchor, anchor - Width(n, step), Put, true, e)
  }

  function CreditSpreads(ctx: Context, family: Family): (out: seq<Strategy>)
    requires ctx.Listed() && (family.BullPutCreditSpread? || family.BearCallCreditSpread?)
    ensures AllAdmissible(out, family)
  {
    hide Sound, Width, Vertical;
    var right := if family.BullPutCreditSpread? then Put else Call;
    ForEach(ctx, family, ShortStrikes(ctx, SHORT_PROBABILITIES, right), NARROW_WIDTHS,
            CreditSpread(right, ctx.StrikeStep(), ctx.expiration))
  }

  function CreditSpread(right: Right, step: real, e: Instant): (real, pos) -> seq<Spec>
    requires step > 0.0
  {
    (short: real, n: pos) =>
      if right == Put then Vertical(short - Width(n, step), short, Put, false, e)
      else Vertical(short + Width(n, step), short, Call, false, e)
  }

  function Butterflies(ctx: Context, family: Family): (out: seq<Strategy>)
    requires ctx.Listed() && (family.CallButterfly? || family.PutButterfly?)
    ensures AllAdmissible(out, family)
  {
    hide Sound, Width, Butterfly;
    var right := if family.CallButterfly? then Call else Put;
    ForEach(ctx, family, ButterflyCentres(ctx), WING_WIDTHS, EvenButterfly(right, ctx.StrikeStep(), ctx.expiration))
  }

  function EvenButterfly(right: Right, step: real, e: Instant): (real, pos) -> seq<Spec>
    requires step > 0.0
  {
    (centre: real, n: pos) => Butterfly(centre - Width(n, step), centre, centre + Width(n, step), right, e)
  }

  /** Two wing widths, in steps. */
  datatype Wings = Wings(near: pos, far: pos)

  /** The far wing is extended away from the body. */
  function BrokenWings(ctx: Context, family: Family): (out: seq<Strategy>)
    requires ctx.Listed() && (family.BrokenWingCallButterfly? || family.BrokenWingPutButterfly?)
    ensures AllAdmissible(out, family)
  {
    hide Sound, Width, Butterfly;
    var wings := [Wings(1, 2), Wings(1, 3), Wings(2, 3), Wings(2, 4), Wings(3, 4), Wings(3, 5)];
    ForEach(ctx, family, ButterflyCentres(ctx), wings, BrokenWing(family, ctx.StrikeStep(), ctx.expiration))
  }

  function BrokenWing(family: Family, step: real, e: Instant): (real, Wings) -> seq<Spec>
    requires step > 0.0
  {
    (centre: real, w: Wings) =>
      if family.BrokenWingCallButterfly? then
        Butterfly(centre - Width(w.near, step), centre, centre + Width(w.far, step), Call, e)
      else
        Butterfly(centre + Width(w.near, step), centre, centre - Width(w.far, step), Put, e)
  }

  /** Iron, asymmetric and broken-wing condors differ in the short probabilities (put, call) and in
      the put and call wing widths. */
  function Condors(ctx: Context, family: Family): (out: seq<Strategy>)
    requires ctx.Listed() && (family.IronCondor? || family.AsymmetricCondor? || family.BrokenWingCondor?)
    ensures AllAdmissible(out, family)
  {
    hide Sound, Condor;
    ForEach(ctx, family, ShortPairs(ctx, CondorProbabilities(family)), CondorWings(family),
            CondorOf(ctx.StrikeStep(), ctx.expiration))
  }

  function CondorProbabilities(family: Family): seq<(real, real)>
    requires family.IronCondor? || family.AsymmetricCondor? || family.BrokenWingCondor?
  {
    match family
    case IronCondor => [(0.10, 0.10), (0.16, 0.16), (0.25, 0.25)]
    case AsymmetricCondor => [(0.10, 0.28), (0.28, 0.10), (0.16, 0.34)]
    case BrokenWingCondor => [(0.16, 0.16), (0.25, 0.25)]
  }

  function CondorWings(family: Family): seq<Wings>
    requires family.IronCondor? || family.AsymmetricCondor? || family.BrokenWingCondor?
  {
    match family
    case IronCondor => [Wings(2, 2), Wings(3, 3), Wings(5, 5)]
    case AsymmetricCondor => [Wings(2, 2), Wings(3, 3)]
    case BrokenWingCondor => [Wings(2, 5), Wings(5, 2)]
  }

  function CondorOf(step: real, e: Instant): (Shorts, Wings) -> seq<Spec>
    requires step > 0.0
  {
    (p: Shorts, w: Wings) => Condor(p, w, step, e)
  }

  function Condor(p: Shorts, w: Wings, step: real, e: Instant): (specs: seq<Spec>)
    requires step > 0.0
    ensures Sound(specs, false)
  {
    hide Sound, Width;
    Iron(p.put - Width(w.near, step), p.put, p.call, p.call + Width(w.far, step), e)
  }

  function IronButterflies(ctx: Context): (out: seq<Strategy>)
    requires ctx.Listed()
    ensures AllAdmissible(out, IronButterfly)
  {
    hide Sound, Width, Iron;
    ForEach(ctx, IronButterfly, ButterflyCentres(ctx), WING_WIDTHS, IronFly(ctx.StrikeStep(), ctx.expiration))
  }

  function IronFly(step: real, e: Instant): (real, pos) -> seq<Spec>
    requires step > 0.0
  {
    (centre: real, n: pos) => Iron(centre - Width(n, step), centre, centre, centre + Width(n, step), e)
  }

  function Straddles(ctx: Context): (out: seq<Strategy>)
    requires ctx.Listed()
    ensures AllAdmissible(out, LongStraddle)
  {
    ForEach(ctx, LongStraddle, SortedDistinct([ctx.Atm(), ctx.Snap(ctx.spot)]), [()], Straddle(ctx.expiration))
  }

  function Straddle(e: Instant): (real, ()) -> seq<Spec> { (centre: real, _: ()) => LongVolatility(centre, centre, e) }

  function Strangles(ctx: Context): (out: seq<Strategy>)
    requires ctx.Listed()
    ensures AllAdmissible(out, LongStrangle)
  {
    ForEach(ctx, LongStrangle, StrangleStrikes(ctx, WING_WIDTHS), [()], Strangle(ctx.expiration))
  }

  function Strangle(e: Instant): (Shorts, ()) -> seq<Spec> { (p: Shorts, _: ()) => LongVolatility(p.call, p.put, e) }

  /** Snapped strikes a width either side of the money, kept only when they did not collapse. */
  function StrangleStrikes(ctx: Context, widths: seq<pos>): seq<Shorts>
    requires ctx.Listed()
  {
    if widths == [] then [] else StrangleAt(ctx, widths[0]) + StrangleStrikes(ctx, widths[1..])
  }

  function StrangleAt(ctx: Context, n: pos): seq<Shorts>
    requires ctx.Listed()
  {
    hide Offset, Context.Snap, Context.Atm, Context.StrikeStep;
    var call := ctx.Snap(ctx.Atm() + Offset(n, ctx.StrikeStep()));
    var put := ctx.Snap(ctx.Atm() - Offset(n, ctx.StrikeStep()));
    if call <= put then [] else [ShortRecord.Shorts(put, call)]
  }

  function Backspreads(ctx: Context, family: Family): (out: seq<Strategy>)
    requires ctx.Listed() && (family.CallBackspread? || family.PutBackspread?)
    ensures AllAdmissible(out, family)
  {
    hide Sound, Backspread;
    var right := if family.CallBackspread? then Call else Put;
    var dir := if right == Call then 1 else -1;
    ForEach(ctx, family, BackspreadPairs(ctx, dir), [()], Ratio(right, ctx.expiration))
  }

  function BackspreadPairs(ctx: Context, dir: int): seq<Snapped>
    requires ctx.Listed()
  {
    SnappedPairs(ctx, [0, dir], [dir, 2 * dir, 3 * dir])
  }

  function Ratio(right: Right, e: Instant): (Snapped, ()) -> seq<Spec> {
    (p: Snapped, _: ()) => Backspread(p.first, p.second, right, e)
  }

  /** Two different listed strikes. */
  datatype SnappedPair = Snapped(first: real, second: real)
  type Snapped = p: SnappedPair | p.first != p.second witness SnappedPair.Snapped(0.0, 1.0)

  /** Pairs (first, second): `first` snapped an offset from the money, `second` snapped a width from
      `first`, kept only when it lies strictly on the side the width points to. */
  function SnappedPairs(ctx: Context, offsets: seq<int>, widths: seq<int>): seq<Snapped>
    requires ctx.Listed()
  {
    hide Offset, Context.Snap, Context.Atm, Context.StrikeStep;
    if offsets == [] then []
    else PairsFrom(ctx, ctx.Snap(ctx.Atm() + Offset(offsets[0], ctx.StrikeStep())), widths)
         + SnappedPairs(ctx, offsets[1..], widths)
  }

  function PairsFrom(ctx: Context, first: real, widths: seq<int>): seq<Snapped>
    requires ctx.Listed()
  {
    if widths == [] then [] else PairAt(ctx, first, widths[0]) + PairsFrom(ctx, first, widths[1..])
  }

  function PairAt(ctx: Context, first: real, width: int): seq<Snapped>
    requires ctx.Listed()
  {
    hide Offset, Context.Snap, Context.Atm, Context.StrikeStep;
    var second := ctx.Snap(first + Offset(width, ctx.StrikeStep()));
    if (if width > 0 then second <= first else second >= first) then [] else [SnappedPair.Snapped(first, second)]
  }

  predicate HasFar(ctx: Context) {
    ctx.farExpiration.Some? && ctx.expiration < ctx.farExpiration.value
  }

  function Calendars(ctx: Context, family: Family): (out: seq<Strategy>)
    requires ctx.Listed() && (family.BullishCalendar? || family.BearishCalendar?)
    ensures AllAdmissible(out, family)
  {
    if !HasFar(ctx) then []
    else
      var right, dir := if family.BullishCalendar? then Call else Put, if family.BullishCalendar? then 1 else -1;
      ForEach(ctx, family, CalendarStrikes(ctx, dir), [()], Calendar(right, ctx.expiration, ctx.farExpiration.value))
  }

  function CalendarStrikes(ctx: Context, dir: int): seq<real>
    requires ctx.Listed()
  {
    [ctx.Snap(ctx.Atm()), ctx.Snap(ctx.Atm() + Offset(dir, ctx.StrikeStep())),
     ctx.Snap(ctx.Atm() + Offset(2 * dir, ctx.StrikeStep()))]
  }

  function Calendar(right: Right, near: Instant, far: Instant): (real, ()) -> seq<Spec>
    requires near < far
  {
    (strike: real, _: ()) => Diagonal(strike, strike, right, near, far)
  }

  function DoubleCalendars(ctx: Context): (out: seq<Strategy>)
    requires ctx.Listed()
    ensures AllAdmissible(out, DoubleCalendar)
  {
    if !HasFar(ctx) then []
    else
      var near, far := ctx.expiration, ctx.farExpiration.value;
      ForEach(ctx, DoubleCalendar, StrangleStrikes(ctx, WING_WIDTHS), [()], TwoCalendars(near, far))
  }

  function TwoCalendars(near: Instant, far: Instant): (Shorts, ()) -> seq<Spec>
    requires near < far
  {
    (p: Shorts, _: ()) => DoubleDiagonal(p.call, p.put, near, far)
  }

  /** Long the far leg one step in the money, short the near leg beyond it. */
  function Diagonals(ctx: Context, family: Family): (out: seq<Strategy>)
    requires ctx.Listed() && (family.BullishDiagonal? || family.BearishDiagonal?)
    ensures AllAdmissible(out, family)
  {
    if !HasFar(ctx) then []
    else
      var near, far := ctx.expiration, ctx.farExpiration.value;
      var right, dir := if family.BullishDiagonal? then Call else Put, if family.BullishDiagonal? then 1 else -1;
      ForEach(ctx, family, DiagonalPairs(ctx, dir), [()], DiagonalOf(right, near, far))
  }

  function DiagonalPairs(ctx: Context, dir: int): seq<Snapped>
    requires ctx.Listed()
  {
    SnappedPairs(ctx, [-dir], [dir, 2 * dir, 3 * dir])
  }

  function DiagonalOf(right: Right, near: Instant, far: Instant): (Snapped, ()) -> seq<Spec>
    requires near < far
  {
    (p: Snapped, _: ()) => Diagonal(p.second, p.first, right, near, far)
  }

  /** Whatever a generator yields passes the structural rules and has a finite maximum loss. */
  lemma GeneratedLossIsFinite(family: Family, ctx: Context, s: Strategy, p: Profile)
    requires ctx.Listed() && s in Generate(family, ctx) && IsProfile(s, None, p)
    ensures s.family == family && Admissible(s) && p.maxLoss.Finite?
  {
    hide IsProfile;
    assert AllAdmissible(Generate(family, ctx), family);
    SlopeInProfile(s, p);
  }
}
