/** What the structures of each family pay at expiration: the exact shape of the terminal payoff, its
    kinks named by the strikes the family is built on, and what the family's name promises of it. */
module Shapes {
  import opened Options
  import opened Vectors
  import opened Payoff
  import opened Market
  import opened Generators
  import opened Families

  // ---------------------------------------------------------------- a payoff is the sum of its legs

  /** Dollars of intrinsic value a leg of this strike brings at `x`. */
  function Worth(right: Right, quantity: int, strike: real, x: real): real {
    quantity as real * MULTIPLIER * Intrinsic(right, strike, x)
  }

  function Intrinsic(right: Right, strike: real, x: real): real {
    if right == Call then Max(0.0, x - strike) else Max(0.0, strike - x)
  }

  function Earned(legs: seq<Leg>, x: real): real {
    if legs == [] then 0.0
    else Worth(legs[0].right, legs[0].quantity, legs[0].strike, x) + Earned(legs[1..], x)
  }

  lemma {:induction false} GrossIsEarned(legs: seq<Leg>, x: real, at: Instant)
    ensures Gross(legs, x, at, false) == Earned(legs, x)
  {
    if legs != [] {
      GrossIsEarned(legs[1..], x, at);
      assert Weights(legs)[1..] == Weights(legs[1..]);
      assert Values(legs, x, at, false)[1..] == Values(legs[1..], x, at, false);
    }
  }

  /** The legs of a structure are worth this much at `x`, once each has its specified terms. */
  lemma {:induction false} EarnedBySpecs(specs: seq<Spec>, legs: seq<Leg>, x: real)
    requires |specs| == |legs| && forall i | 0 <= i < |specs| :: specs[i].Matches(legs[i])
    ensures Earned(legs, x) == WorthOf(specs, x)
  {
    if specs != [] {
      EarnedBySpecs(specs[1..], legs[1..], x);
    }
  }

  function WorthOf(specs: seq<Spec>, x: real): real {
    if specs == [] then 0.0
    else Worth(specs[0].right, specs[0].quantity, specs[0].strike, x) + WorthOf(specs[1..], x)
  }

  lemma TerminalIsWorth(ctx: Context, specs: seq<Spec>, s: Strategy, x: real)
    requires ctx.Listed() && ctx.MakeLegs(specs) == Some(s.legs)
    ensures TerminalPayoff(s, x) == WorthOf(specs, x) - NetEntryCost(s.legs)
  {
    hide Context.MakeLegs, Context.Listed, NetEntryCost, Worth, WorthOf, Earned, Gross, Expiries;
    GrossIsEarned(s.legs, x, FarExpiry(s));
    EarnedBySpecs(specs, s.legs, x);
  }

  lemma Worths(right: Right, strike: real, x: real)
    ensures Worth(right, 1, strike, x) == 100.0 * Intrinsic(right, strike, x)
    ensures Worth(right, -1, strike, x) == -100.0 * Intrinsic(right, strike, x)
    ensures Worth(right, 2, strike, x) == 200.0 * Intrinsic(right, strike, x)
    ensures Worth(right, -2, strike, x) == -200.0 * Intrinsic(right, strike, x)
  {
  }

  lemma WorthOfTwo(a: Spec, b: Spec, x: real)
    ensures WorthOf([a, b], x) == Worth(a.right, a.quantity, a.strike, x) + Worth(b.right, b.quantity, b.strike, x)
  {
    assert [a, b][1..] == [b];
    assert WorthOf([b], x) == Worth(b.right, b.quantity, b.strike, x) + WorthOf([], x) by { assert [b][1..] == []; }
  }

  lemma WorthOfThree(a: Spec, b: Spec, c: Spec, x: real)
    ensures WorthOf([a, b, c], x) == Worth(a.right, a.quantity, a.strike, x) + WorthOf([b, c], x)
  {
    assert [a, b, c][1..] == [b, c];
  }

  lemma WorthOfFour(a: Spec, b: Spec, c: Spec, d: Spec, x: real)
    ensures WorthOf([a, b, c, d], x) == Worth(a.right, a.quantity, a.strike, x) + WorthOf([b, c, d], x)
  {
    assert [a, b, c, d][1..] == [b, c, d];
  }

  // ---------------------------------------------------------------- straight pieces

  predicate UpTo(x: real, end: Bound) { end.Finite? ==> x <= end.value }

  /** The payoff does not move on the segment. */
  ghost predicate Level(s: Strategy, from: real, end: Bound) {
    forall x, y | from <= x <= y && UpTo(y, end) :: TerminalPayoff(s, y) == TerminalPayoff(s, x)
  }

  /** It gains a contract's worth per point. */
  ghost predicate Up(s: Strategy, from: real, end: Bound) {
    forall x, y | from <= x <= y && UpTo(y, end) :: TerminalPayoff(s, y) == TerminalPayoff(s, x) + MULTIPLIER * (y - x)
  }

  /** It loses a contract's worth per point. */
  ghost predicate Down(s: Strategy, from: real, end: Bound) {
    forall x, y | from <= x <= y && UpTo(y, end) :: TerminalPayoff(s, y) == TerminalPayoff(s, x) - MULTIPLIER * (y - x)
  }

  /** Level to `a`, up to `b`, level from there. */
  ghost predicate Rises(s: Strategy, a: real, b: real) {
    0.0 < a < b && Level(s, 0.0, Finite(a)) && Up(s, a, Finite(b)) && Level(s, b, Infinite)
  }

  ghost predicate Falls(s: Strategy, a: real, b: real) {
    0.0 < a < b && Level(s, 0.0, Finite(a)) && Down(s, a, Finite(b)) && Level(s, b, Infinite)
  }

  /** Up from `a` to `b`, level to `c`, down to `d`, level outside. */
  ghost predicate Tent(s: Strategy, a: real, b: real, c: real, d: real) {
    && 0.0 < a < b <= c < d
    && Level(s, 0.0, Finite(a)) && Up(s, a, Finite(b)) && Level(s, b, Finite(c))
    && Down(s, c, Finite(d)) && Level(s, d, Infinite)
  }

  /** Down to `b`, level to `c`, up from there. */
  ghost predicate Valley(s: Strategy, b: real, c: real) {
    0.0 < b <= c && Down(s, 0.0, Finite(b)) && Level(s, b, Finite(c)) && Up(s, c, Infinite)
  }

  /** Level to `a`, down to `b`, up from there. */
  ghost predicate KicksUp(s: Strategy, a: real, b: real) {
    0.0 < a < b && Level(s, 0.0, Finite(a)) && Down(s, a, Finite(b)) && Up(s, b, Infinite)
  }

  /** Down to `a`, up to `b`, level from there. */
  ghost predicate KicksDown(s: Strategy, a: real, b: real) {
    0.0 < a < b && Down(s, 0.0, Finite(a)) && Up(s, a, Finite(b)) && Level(s, b, Infinite)
  }

  // ---------------------------------------------------------------- what the shapes mean

  ghost predicate NeverFalls(s: Strategy) {
    forall x, y | 0.0 <= x <= y :: TerminalPayoff(s, x) <= TerminalPayoff(s, y)
  }

  ghost predicate NeverRises(s: Strategy) {
    forall x, y | 0.0 <= x <= y :: TerminalPayoff(s, x) >= TerminalPayoff(s, y)
  }

  lemma RisesMeans(s: Strategy, a: real, b: real)
    requires Rises(s, a, b)
    ensures NeverFalls(s) && TerminalPayoff(s, 0.0) == TerminalPayoff(s, a) < TerminalPayoff(s, b)
    ensures forall x | x >= b :: TerminalPayoff(s, x) == TerminalPayoff(s, b)
  {
    hide TerminalPayoff;
    forall x, y | 0.0 <= x <= y ensures TerminalPayoff(s, x) <= TerminalPayoff(s, y) {
      var t, u := Max(x, Min(y, a)), Max(x, Min(y, b));
      assert x <= t <= u <= y;
    }
  }

  lemma FallsMeans(s: Strategy, a: real, b: real)
    requires Falls(s, a, b)
    ensures NeverRises(s) && TerminalPayoff(s, 0.0) == TerminalPayoff(s, a) > TerminalPayoff(s, b)
    ensures forall x | x >= b :: TerminalPayoff(s, x) == TerminalPayoff(s, b)
  {
    hide TerminalPayoff;
    forall x, y | 0.0 <= x <= y ensures TerminalPayoff(s, x) >= TerminalPayoff(s, y) {
      var t, u := Max(x, Min(y, a)), Max(x, Min(y, b));
      assert x <= t <= u <= y;
    }
  }

  /** `v` is paid between `lo` and `hi`, and less anywhere else. */
  ghost predicate GreatestBetween(s: Strategy, lo: real, hi: real) {
    forall x, m | x >= 0.0 && lo <= m <= hi ::
      if lo <= x <= hi then TerminalPayoff(s, x) == TerminalPayoff(s, m)
      else TerminalPayoff(s, x) < TerminalPayoff(s, m)
  }

  ghost predicate LeastBetween(s: Strategy, lo: real, hi: real) {
    forall x, m | x >= 0.0 && lo <= m <= hi ::
      if lo <= x <= hi then TerminalPayoff(s, x) == TerminalPayoff(s, m)
      else TerminalPayoff(s, x) > TerminalPayoff(s, m)
  }

  lemma TentMeans(s: Strategy, a: real, b: real, c: real, d: real)
    requires Tent(s, a, b, c, d)
    ensures GreatestBetween(s, b, c)
    ensures forall x | x >= d ::
      TerminalPayoff(s, x) - TerminalPayoff(s, 0.0) == MULTIPLIER * ((b - a) - (d - c))
  {
    hide TerminalPayoff;
    assert TerminalPayoff(s, a) == TerminalPayoff(s, 0.0);
    assert TerminalPayoff(s, b) == TerminalPayoff(s, a) + MULTIPLIER * (b - a);
    assert TerminalPayoff(s, c) == TerminalPayoff(s, b);
    assert TerminalPayoff(s, d) == TerminalPayoff(s, c) - MULTIPLIER * (d - c);
    forall x, m | x >= 0.0 && b <= m <= c
      ensures if b <= x <= c then TerminalPayoff(s, x) == TerminalPayoff(s, m)
              else TerminalPayoff(s, x) < TerminalPayoff(s, m)
    {
      assert TerminalPayoff(s, m) == TerminalPayoff(s, b);
    }
  }

  lemma ValleyMeans(s: Strategy, b: real, c: real)
    requires Valley(s, b, c)
    ensures LeastBetween(s, b, c)
  {
    hide TerminalPayoff;
    assert TerminalPayoff(s, c) == TerminalPayoff(s, b);
    forall x, m | x >= 0.0 && b <= m <= c
      ensures if b <= x <= c then TerminalPayoff(s, x) == TerminalPayoff(s, m)
              else TerminalPayoff(s, x) > TerminalPayoff(s, m)
    {
      assert TerminalPayoff(s, m) == TerminalPayoff(s, b);
    }
  }

  /** Every level is passed by some higher spot. */
  ghost predicate RisesWithoutBound(s: Strategy) {
    forall level, from :: PassesBeyond(s, level, from)
  }

  ghost predicate PassesBeyond(s: Strategy, level: real, from: real) {
    exists x :: x >= from && TerminalPayoff(s, x) > level
  }

  lemma UpIsUnbounded(s: Strategy, from: real)
    requires Up(s, from, Infinite)
    ensures RisesWithoutBound(s)
  {
    hide TerminalPayoff;
    forall level, low ensures PassesBeyond(s, level, low) {
      var start := Max(from, low);
      var gap := Max(0.0, level - TerminalPayoff(s, start));
      var high := start + gap + 1.0;
      assert TerminalPayoff(s, high) == TerminalPayoff(s, start) + MULTIPLIER * (high - start);
      assert high >= low && TerminalPayoff(s, high) > level;
    }
  }

  lemma KicksUpMeans(s: Strategy, a: real, b: real)
    requires KicksUp(s, a, b)
    ensures RisesWithoutBound(s) && LeastBetween(s, b, b)
  {
    hide TerminalPayoff;
    UpIsUnbounded(s, b);
    assert TerminalPayoff(s, a) == TerminalPayoff(s, b) + MULTIPLIER * (b - a);
  }

  /** Below its least point the payoff only gains as the spot falls, all the way to zero. */
  lemma KicksDownMeans(s: Strategy, a: real, b: real)
    requires KicksDown(s, a, b)
    ensures LeastBetween(s, a, a)
    ensures forall x | 0.0 <= x <= a ::
      TerminalPayoff(s, x) == TerminalPayoff(s, a) + MULTIPLIER * (a - x)
    ensures forall x | x >= b :: TerminalPayoff(s, 0.0) - TerminalPayoff(s, x) == MULTIPLIER * (a + a - b)
  {
    hide TerminalPayoff;
    assert TerminalPayoff(s, b) == TerminalPayoff(s, a) + MULTIPLIER * (b - a);
    assert TerminalPayoff(s, a) == TerminalPayoff(s, 0.0) - MULTIPLIER * a;
  }

  // ---------------------------------------------------------------- the shapes of leg lists

  /** Every strike of a built structure is positive. */
  lemma StrikesArePositive(ctx: Context, specs: seq<Spec>, s: Strategy)
    requires ctx.Listed() && ctx.MakeLegs(specs) == Some(s.legs)
    ensures forall i | 0 <= i < |specs| :: specs[i].strike > 0.0
  {
    hide Context.MakeLegs, Context.Listed;
    forall i | 0 <= i < |specs| ensures specs[i].strike > 0.0 {
      assert specs[i].Matches(s.legs[i]) && s.legs[i].IsValid();
    }
  }

  lemma TwoLegs(ctx: Context, specs: seq<Spec>, s: Strategy, x: real)
    requires ctx.Listed() && |specs| == 2 && ctx.MakeLegs(specs) == Some(s.legs)
    ensures TerminalPayoff(s, x) == LegWorth(specs[0], x) + LegWorth(specs[1], x) - NetEntryCost(s.legs)
  {
    hide TerminalPayoff, Context.MakeLegs, Context.Listed, NetEntryCost, WorthOf, Worth;
    assert specs == [specs[0], specs[1]];
    TerminalIsWorth(ctx, specs, s, x);
    WorthOfTwo(specs[0], specs[1], x);
  }

  lemma ThreeLegs(ctx: Context, specs: seq<Spec>, s: Strategy, x: real)
    requires ctx.Listed() && |specs| == 3 && ctx.MakeLegs(specs) == Some(s.legs)
    ensures TerminalPayoff(s, x)
         == LegWorth(specs[0], x) + LegWorth(specs[1], x) + LegWorth(specs[2], x) - NetEntryCost(s.legs)
  {
    hide TerminalPayoff, Context.MakeLegs, Context.Listed, NetEntryCost, WorthOf, Worth;
    assert specs == [specs[0], specs[1], specs[2]];
    TerminalIsWorth(ctx, specs, s, x);
    WorthOfThree(specs[0], specs[1], specs[2], x);
    WorthOfTwo(specs[1], specs[2], x);
  }

  lemma FourLegs(ctx: Context, specs: seq<Spec>, s: Strategy, x: real)
    requires ctx.Listed() && |specs| == 4 && ctx.MakeLegs(specs) == Some(s.legs)
    ensures TerminalPayoff(s, x) == LegWorth(specs[0], x) + LegWorth(specs[1], x) + LegWorth(specs[2], x)
                                    + LegWorth(specs[3], x) - NetEntryCost(s.legs)
  {
    hide TerminalPayoff, Context.MakeLegs, Context.Listed, NetEntryCost, WorthOf, Worth;
    assert specs == [specs[0], specs[1], specs[2], specs[3]];
    TerminalIsWorth(ctx, specs, s, x);
    WorthOfFour(specs[0], specs[1], specs[2], specs[3], x);
    WorthOfThree(specs[1], specs[2], specs[3], x);
    WorthOfTwo(specs[2], specs[3], x);
  }

  function LegWorth(spec: Spec, x: real): real { Worth(spec.right, spec.quantity, spec.strike, x) }

  lemma LegWorths(spec: Spec, x: real)
    ensures spec.quantity == 1 ==> LegWorth(spec, x) == 100.0 * Intrinsic(spec.right, spec.strike, x)
    ensures spec.quantity == -1 ==> LegWorth(spec, x) == -100.0 * Intrinsic(spec.right, spec.strike, x)
    ensures spec.quantity == 2 ==> LegWorth(spec, x) == 200.0 * Intrinsic(spec.right, spec.strike, x)
    ensures spec.quantity == -2 ==> LegWorth(spec, x) == -200.0 * Intrinsic(spec.right, spec.strike, x)
  {
    Worths(spec.right, spec.strike, x);
  }

  lemma Parity(right: Right, strike: real, x: real)
    ensures Intrinsic(right, strike, x)
         == Intrinsic(Call, strike, x) + (if right == Call then 0.0 else strike - x)
  {
  }

  lemma VerticalIs(ctx: Context, specs: seq<Spec>, s: Strategy, long: Spec, short: Spec, x: real)
    requires ctx.Listed() && ctx.MakeLegs(specs) == Some(s.legs)
    requires (specs == [long, short] || specs == [short, long]) && long.right == short.right
    requires long.quantity == 1 && short.quantity == -1
    ensures TerminalPayoff(s, x)
         == 100.0 * Intrinsic(Call, long.strike, x) - 100.0 * Intrinsic(Call, short.strike, x)
            + (if long.right == Call then 0.0 else 100.0 * (long.strike - short.strike)) - NetEntryCost(s.legs)
  {
    hide TerminalPayoff, Context.MakeLegs, Context.Listed, NetEntryCost, LegWorth, Intrinsic;
    TwoLegs(ctx, specs, s, x);
    LegWorths(long, x);
    LegWorths(short, x);
    Parity(long.right, long.strike, x);
    Parity(long.right, short.strike, x);
  }

  /** One long and one short leg of a right: with the long leg below, the payoff rises whatever the right. */
  lemma VerticalPays(ctx: Context, specs: seq<Spec>, s: Strategy, long: Spec, short: Spec)
    requires ctx.Listed() && ctx.MakeLegs(specs) == Some(s.legs)
    requires (specs == [long, short] || specs == [short, long]) && long.right == short.right
    requires long.quantity == 1 && short.quantity == -1
    ensures long.strike < short.strike ==> Rises(s, long.strike, short.strike)
    ensures long.strike > short.strike ==> Falls(s, short.strike, long.strike)
    ensures long.strike == short.strike ==> Level(s, 0.0, Infinite)
  {
    hide TerminalPayoff, Context.MakeLegs, Context.Listed, NetEntryCost, LegWorth;
    StrikesArePositive(ctx, specs, s);
    assert specs[0].strike > 0.0 && specs[1].strike > 0.0;
    var base := (if long.right == Call then 0.0 else 100.0 * (long.strike - short.strike)) - NetEntryCost(s.legs);
    forall x
      ensures TerminalPayoff(s, x)
           == 100.0 * Intrinsic(Call, long.strike, x) - 100.0 * Intrinsic(Call, short.strike, x) + base
    {
      VerticalIs(ctx, specs, s, long, short, x);
    }
    hide Rises, Falls, Level, Intrinsic;
    VerticalShape(s, long.strike, short.strike, base);
  }

  lemma VerticalShape(s: Strategy, long: real, short: real, base: real)
    requires long > 0.0 && short > 0.0
    requires forall x ::
      TerminalPayoff(s, x) == 100.0 * Intrinsic(Call, long, x) - 100.0 * Intrinsic(Call, short, x) + base
    ensures long < short ==> Rises(s, long, short)
    ensures long > short ==> Falls(s, short, long)
    ensures long == short ==> Level(s, 0.0, Infinite)
  {
    hide TerminalPayoff;
  }

  predicate IsButterfly(specs: seq<Spec>, right: Right, first: real, centre: real, last: real, e: Instant) {
    specs == [Spec(first, right, 1, e), Spec(centre, right, -2, e), Spec(last, right, 1, e)]
  }

  lemma ButterflyIs(ctx: Context, specs: seq<Spec>, s: Strategy, right: Right, first: real, centre: real, last: real,
      x: real)
    requires ctx.Listed() && ctx.MakeLegs(specs) == Some(s.legs)
    requires IsButterfly(specs, right, first, centre, last, ctx.expiration)
    ensures TerminalPayoff(s, x) == 100.0 * Intrinsic(Call, first, x) - 200.0 * Intrinsic(Call, centre, x)
              + 100.0 * Intrinsic(Call, last, x)
              + (if right == Call then 0.0 else 100.0 * (first - centre - centre + last)) - NetEntryCost(s.legs)
  {
    hide TerminalPayoff, Context.MakeLegs, Context.Listed, NetEntryCost, LegWorth, Intrinsic;
    ThreeLegs(ctx, specs, s, x);
    LegWorths(specs[0], x);
    LegWorths(specs[1], x);
    LegWorths(specs[2], x);
    Parity(right, first, x);
    Parity(right, centre, x);
    Parity(right, last, x);
  }

  lemma ButterflyPays(ctx: Context, specs: seq<Spec>, s: Strategy, right: Right, first: real, centre: real, last: real)
    requires ctx.Listed() && ctx.MakeLegs(specs) == Some(s.legs)
    requires IsButterfly(specs, right, first, centre, last, ctx.expiration)
    requires first < centre < last || last < centre < first
    ensures Tent(s, Min(first, last), centre, centre, Max(first, last))
  {
    hide TerminalPayoff, Context.MakeLegs, Context.Listed, NetEntryCost, Intrinsic, Tent;
    StrikesArePositive(ctx, specs, s);
    assert specs[0].strike > 0.0 && specs[2].strike > 0.0;
    var base := (if right == Call then 0.0 else 100.0 * (first - centre - centre + last)) - NetEntryCost(s.legs);
    forall x
      ensures TerminalPayoff(s, x) == 100.0 * Intrinsic(Call, Min(first, last), x) - 200.0 * Intrinsic(Call, centre, x)
                                      + 100.0 * Intrinsic(Call, Max(first, last), x) + base
    {
      ButterflyIs(ctx, specs, s, right, first, centre, last, x);
    }
    ButterflyShape(s, Min(first, last), centre, Max(first, last), base);
  }

  lemma ButterflyShape(s: Strategy, low: real, centre: real, high: real, base: real)
    requires 0.0 < low < centre < high
    requires forall x ::
      TerminalPayoff(s, x) == base + 100.0 * Intrinsic(Call, low, x) - 200.0 * Intrinsic(Call, centre, x)
                              + 100.0 * Intrinsic(Call, high, x)
    ensures Tent(s, low, centre, centre, high)
  {
    hide TerminalPayoff;
  }

  lemma IronPays(ctx: Context, specs: seq<Spec>, s: Strategy, put: real, call: real, m: nat, n: nat)
    requires ctx.Listed() && specs == IronOf(ctx, put, call, m, n) && ctx.MakeLegs(specs) == Some(s.legs)
    requires put <= call && Steps(ctx, m) > 0.0 && Steps(ctx, n) > 0.0
    ensures Tent(s, put - Steps(ctx, m), put, call, call + Steps(ctx, n))
  {
    hide TerminalPayoff, Context.MakeLegs, Context.Listed, NetEntryCost, LegWorth, Steps;
    StrikesArePositive(ctx, specs, s);
    assert specs[0].strike > 0.0;
    var low, high := put - Steps(ctx, m), call + Steps(ctx, n);
    forall x
      ensures TerminalPayoff(s, x) == 100.0 * Intrinsic(Put, low, x) - 100.0 * Intrinsic(Put, put, x)
                - 100.0 * Intrinsic(Call, call, x) + 100.0 * Intrinsic(Call, high, x) - NetEntryCost(s.legs)
    {
      FourLegs(ctx, specs, s, x);
      LegWorths(specs[0], x);
      LegWorths(specs[1], x);
      LegWorths(specs[2], x);
      LegWorths(specs[3], x);
    }
  }

  lemma LongVolatilityPays(ctx: Context, specs: seq<Spec>, s: Strategy, put: real, call: real)
    requires ctx.Listed() && ctx.MakeLegs(specs) == Some(s.legs)
    requires put <= call && IsLongVolatility(specs, put, call, ctx.expiration)
    ensures Valley(s, put, call)
  {
    hide TerminalPayoff, Context.MakeLegs, Context.Listed, NetEntryCost, LegWorth;
    StrikesArePositive(ctx, specs, s);
    assert specs[1].strike > 0.0;
    forall x
      ensures TerminalPayoff(s, x)
           == 100.0 * Intrinsic(Call, call, x) + 100.0 * Intrinsic(Put, put, x) - NetEntryCost(s.legs)
    {
      TwoLegs(ctx, specs, s, x);
      LegWorths(specs[0], x);
      LegWorths(specs[1], x);
    }
  }

  lemma RatioPays(ctx: Context, specs: seq<Spec>, s: Strategy, short: real, long: real, right: Right)
    requires ctx.Listed() && ctx.MakeLegs(specs) == Some(s.legs)
    requires IsRatio(specs, short, long, right, ctx.expiration)
    ensures right == Call && short < long ==> KicksUp(s, short, long)
    ensures right == Put && long < short ==> KicksDown(s, long, short)
  {
    hide TerminalPayoff, Context.MakeLegs, Context.Listed, NetEntryCost, LegWorth;
    StrikesArePositive(ctx, specs, s);
    assert specs[0].strike > 0.0 && specs[1].strike > 0.0;
    forall x
      ensures TerminalPayoff(s, x)
           == 200.0 * Intrinsic(right, long, x) - 100.0 * Intrinsic(right, short, x) - NetEntryCost(s.legs)
    {
      TwoLegs(ctx, specs, s, x);
      LegWorths(specs[0], x);
      LegWorths(specs[1], x);
    }
  }

  lemma DoubleCalendarPays(ctx: Context, specs: seq<Spec>, s: Strategy, put: real, call: real, near: Instant,
      far: Instant)
    requires ctx.Listed() && ctx.MakeLegs(specs) == Some(s.legs)
    requires IsDoubleCalendar(specs, put, call, near, far)
    ensures Level(s, 0.0, Infinite)
  {
    hide TerminalPayoff, Context.MakeLegs, Context.Listed, NetEntryCost, LegWorth;
    forall x ensures TerminalPayoff(s, x) == -NetEntryCost(s.legs) {
      FourLegs(ctx, specs, s, x);
      LegWorths(specs[0], x);
      LegWorths(specs[1], x);
      LegWorths(specs[2], x);
      LegWorths(specs[3], x);
    }
  }

  // ---------------------------------------------------------------- the shape of every family

  ghost predicate DebitShape(ctx: Context, right: Right, s: Strategy)
    requires ctx.Listed()
  {
    exists k, n: nat :: IsAnchor(ctx, k) && IsNarrow(n)
      && if right == Call then Rises(s, k, k + Steps(ctx, n)) else Falls(s, k - Steps(ctx, n), k)
  }

  ghost predicate CreditShape(ctx: Context, right: Right, s: Strategy)
    requires ctx.Listed()
  {
    exists k, n: nat :: IsShort(ctx, right, k) && IsNarrow(n)
      && if right == Put then Rises(s, k - Steps(ctx, n), k) else Falls(s, k, k + Steps(ctx, n))
  }

  /** A tent over a centre, as wide on either side. */
  ghost predicate ButterflyPeaks(ctx: Context, s: Strategy)
    requires ctx.Listed()
  {
    exists c, n: nat :: IsCentre(ctx, c) && IsWing(n) && Tent(s, c - Steps(ctx, n), c, c, c + Steps(ctx, n))
  }

  /** A tent over a centre, wider above for calls and below for puts. */
  ghost predicate BrokenWingPeaks(ctx: Context, right: Right, s: Strategy)
    requires ctx.Listed()
  {
    exists c, near: nat, far: nat :: IsCentre(ctx, c) && IsBrokenWing(near, far)
      && if right == Call then Tent(s, c - Steps(ctx, near), c, c, c + Steps(ctx, far))
         else Tent(s, c - Steps(ctx, far), c, c, c + Steps(ctx, near))
  }

  /** A tent with a level top between the short strikes. */
  ghost predicate CondorPeaks(family: Family, ctx: Context, s: Strategy)
    requires ctx.Listed()
  {
    exists put, call, m: nat, n: nat :: put < call && AreIronShorts(family, ctx, put, call) && IsIronWings(family, m, n)
      && Tent(s, put - Steps(ctx, m), put, call, call + Steps(ctx, n))
  }

  ghost predicate StrangleDips(ctx: Context, s: Strategy)
    requires ctx.Listed()
  {
    exists put, call, n: nat :: put < call && IsWing(n) && AroundMoney(ctx, n, put, call) && Valley(s, put, call)
  }

  ghost predicate BackspreadKicks(ctx: Context, right: Right, s: Strategy)
    requires ctx.Listed()
  {
    var dir := Outward(right);
    exists short, long :: (FromMoney(ctx, 0, short) || FromMoney(ctx, dir, short)) && Further(ctx, dir, short, long)
      && if right == Call then KicksUp(s, short, long) else KicksDown(s, long, short)
  }

  /** All legs on one strike and right, and at expiration only the cost is left. */
  ghost predicate CalendarShape(ctx: Context, right: Right, s: Strategy)
    requires ctx.Listed()
  {
    exists k :: CalendarStrike(ctx, Outward(right), k) && OnStrike(s, right, k) && Level(s, 0.0, Infinite)
  }

  predicate OnStrike(s: Strategy, right: Right, k: real) {
    forall l | l in s.legs :: l.strike == k && l.right == right
  }

  ghost predicate DiagonalShape(ctx: Context, right: Right, s: Strategy)
    requires ctx.Listed()
  {
    var dir := Outward(right);
    exists long, short :: FromMoney(ctx, -dir, long) && Further(ctx, dir, long, short)
      && if right == Call then Rises(s, long, short) else Falls(s, short, long)
  }

  /** The terminal payoff of a family's structure, with every kink placed. */
  ghost predicate HasShape(family: Family, ctx: Context, s: Strategy)
    requires ctx.Listed()
  {
    match family
    case BullCallDebitSpread => DebitShape(ctx, Call, s)
    case BearPutDebitSpread => DebitShape(ctx, Put, s)
    case BullPutCreditSpread => CreditShape(ctx, Put, s)
    case BearCallCreditSpread => CreditShape(ctx, Call, s)
    case CallButterfly | PutButterfly | IronButterfly => ButterflyPeaks(ctx, s)
    case BrokenWingCallButterfly => BrokenWingPeaks(ctx, Call, s)
    case BrokenWingPutButterfly => BrokenWingPeaks(ctx, Put, s)
    case IronCondor | AsymmetricCondor | BrokenWingCondor => CondorPeaks(family, ctx, s)
    case LongStraddle => Valley(s, ctx.Atm(), ctx.Atm())
    case LongStrangle => StrangleDips(ctx, s)
    case CallBackspread => BackspreadKicks(ctx, Call, s)
    case PutBackspread => BackspreadKicks(ctx, Put, s)
    case BullishCalendar => CalendarShape(ctx, Call, s)
    case BearishCalendar => CalendarShape(ctx, Put, s)
    case DoubleCalendar => Level(s, 0.0, Infinite)
    case BullishDiagonal => DiagonalShape(ctx, Call, s)
    case BearishDiagonal => DiagonalShape(ctx, Put, s)
  }

  lemma StepsArePositive(ctx: Context, n: nat)
    requires n > 0
    ensures Steps(ctx, n) > 0.0
  {
    ProductPositive(n as real, ctx.StrikeStep());
  }

  lemma DebitPays(ctx: Context, right: Right, specs: seq<Spec>, s: Strategy)
    requires ctx.Listed() && OffersDebit(ctx, right, specs) && ctx.MakeLegs(specs) == Some(s.legs)
    ensures DebitShape(ctx, right, s)
  {
    hide Context.MakeLegs, Context.Listed, IsAnchor, Steps, Rises, Falls, Level;
    var k, n: nat :| IsAnchor(ctx, k) && IsNarrow(n) && specs == DebitOf(ctx, right, k, n);
    StepsArePositive(ctx, n);
    VerticalPays(ctx, specs, s, specs[0], specs[1]);
  }

  lemma CreditPays(ctx: Context, right: Right, specs: seq<Spec>, s: Strategy)
    requires ctx.Listed() && OffersCredit(ctx, right, specs) && ctx.MakeLegs(specs) == Some(s.legs)
    ensures CreditShape(ctx, right, s)
  {
    hide Context.MakeLegs, Context.Listed, IsShort, Steps, Rises, Falls, Level;
    var k, n: nat :| IsShort(ctx, right, k) && IsNarrow(n) && specs == CreditOf(ctx, right, k, n);
    StepsArePositive(ctx, n);
    VerticalPays(ctx, specs, s, specs[1], specs[0]);
  }

  lemma EvenButterflyPays(ctx: Context, right: Right, specs: seq<Spec>, s: Strategy)
    requires ctx.Listed() && OffersButterfly(ctx, right, specs) && ctx.MakeLegs(specs) == Some(s.legs)
    ensures ButterflyPeaks(ctx, s)
  {
    hide Context.MakeLegs, Context.Listed, IsCentre, Steps, Tent;
    var c, n: nat :| IsCentre(ctx, c) && IsWing(n) && specs == ButterflyOf(ctx, right, c, n);
    StepsArePositive(ctx, n);
    ButterflyPays(ctx, specs, s, right, c - Steps(ctx, n), c, c + Steps(ctx, n));
  }

  lemma BrokenWingPays(ctx: Context, right: Right, specs: seq<Spec>, s: Strategy)
    requires ctx.Listed() && OffersBrokenWing(ctx, right, specs) && ctx.MakeLegs(specs) == Some(s.legs)
    ensures BrokenWingPeaks(ctx, right, s)
  {
    hide Context.MakeLegs, Context.Listed, IsCentre, Steps, Tent;
    var c, near: nat, far: nat :| IsCentre(ctx, c) && IsBrokenWing(near, far)
      && specs == BrokenWingOf(ctx, right, c, near, far);
    StepsArePositive(ctx, near);
    StepsArePositive(ctx, far);
    ButterflyPays(ctx, specs, s, right, specs[0].strike, c, specs[2].strike);
  }

  lemma CondorPays(family: Family, ctx: Context, specs: seq<Spec>, s: Strategy)
    requires ctx.Listed() && OffersCondor(family, ctx, specs) && ctx.MakeLegs(specs) == Some(s.legs)
    ensures CondorPeaks(family, ctx, s)
  {
    hide Context.MakeLegs, Context.Listed, AreIronShorts, Steps, Tent, IronOf;
    var put, call, m: nat, n: nat :| put < call && AreIronShorts(family, ctx, put, call) && IsIronWings(family, m, n)
      && specs == IronOf(ctx, put, call, m, n);
    StepsArePositive(ctx, m);
    StepsArePositive(ctx, n);
    IronPays(ctx, specs, s, put, call, m, n);
  }

  lemma IronButterflyPays(ctx: Context, specs: seq<Spec>, s: Strategy)
    requires ctx.Listed() && OffersIronButterfly(ctx, specs) && ctx.MakeLegs(specs) == Some(s.legs)
    ensures ButterflyPeaks(ctx, s)
  {
    hide Context.MakeLegs, Context.Listed, IsCentre, Steps, Tent, IronOf;
    var c, n: nat :| IsCentre(ctx, c) && IsWing(n) && specs == IronOf(ctx, c, c, n, n);
    StepsArePositive(ctx, n);
    IronPays(ctx, specs, s, c, c, n, n);
  }

  lemma StranglePays(ctx: Context, specs: seq<Spec>, s: Strategy)
    requires ctx.Listed() && OffersStrangle(ctx, specs) && ctx.MakeLegs(specs) == Some(s.legs)
    ensures StrangleDips(ctx, s)
  {
    hide Context.MakeLegs, Context.Listed, AroundMoney, Valley;
    var put, call, n: nat :| put < call && IsWing(n) && AroundMoney(ctx, n, put, call)
      && IsLongVolatility(specs, put, call, ctx.expiration);
    LongVolatilityPays(ctx, specs, s, put, call);
  }

  lemma BackspreadPays(ctx: Context, right: Right, specs: seq<Spec>, s: Strategy)
    requires ctx.Listed() && OffersBackspread(ctx, right, specs) && ctx.MakeLegs(specs) == Some(s.legs)
    ensures BackspreadKicks(ctx, right, s)
  {
    hide Context.MakeLegs, Context.Listed, FromMoney, Further, KicksUp, KicksDown;
    var dir := Outward(right);
    var short, long :| (FromMoney(ctx, 0, short) || FromMoney(ctx, dir, short)) && Further(ctx, dir, short, long)
      && IsRatio(specs, short, long, right, ctx.expiration);
    FurtherIsBeyond(ctx, dir, short, long);
    RatioPays(ctx, specs, s, short, long, right);
  }

  lemma FurtherIsBeyond(ctx: Context, dir: int, first: real, second: real)
    requires ctx.Listed() && Further(ctx, dir, first, second)
    ensures if dir > 0 then first < second else second < first
  {
    hide Context.Listed, Context.Snap, Steps;
  }

  lemma CalendarPays(ctx: Context, right: Right, specs: seq<Spec>, s: Strategy)
    requires ctx.Listed() && OffersCalendar(ctx, right, specs) && ctx.MakeLegs(specs) == Some(s.legs)
    ensures CalendarShape(ctx, right, s)
  {
    hide Context.MakeLegs, Context.Listed, CalendarStrike, Rises, Falls, Level;
    var k :| CalendarStrike(ctx, Outward(right), k)
      && IsTimeSpread(specs, k, k, right, ctx.expiration, ctx.farExpiration.value);
    VerticalPays(ctx, specs, s, specs[1], specs[0]);
    assert specs[0].Matches(s.legs[0]) && specs[1].Matches(s.legs[1]);
  }

  lemma DiagonalPays(ctx: Context, right: Right, specs: seq<Spec>, s: Strategy)
    requires ctx.Listed() && OffersDiagonal(ctx, right, specs) && ctx.MakeLegs(specs) == Some(s.legs)
    ensures DiagonalShape(ctx, right, s)
  {
    hide Context.MakeLegs, Context.Listed, FromMoney, Further, Rises, Falls, Level;
    var dir := Outward(right);
    var long, short :| FromMoney(ctx, -dir, long) && Further(ctx, dir, long, short)
      && IsTimeSpread(specs, short, long, right, ctx.expiration, ctx.farExpiration.value);
    FurtherIsBeyond(ctx, dir, long, short);
    VerticalPays(ctx, specs, s, specs[1], specs[0]);
  }

  lemma DoubleCalendarIsLevel(ctx: Context, specs: seq<Spec>, s: Strategy)
    requires ctx.Listed() && OffersDoubleCalendar(ctx, specs) && ctx.MakeLegs(specs) == Some(s.legs)
    ensures Level(s, 0.0, Infinite)
  {
    hide Context.MakeLegs, Context.Listed, AroundMoney, Level;
    var put, call, n: nat :| put < call && IsWing(n) && AroundMoney(ctx, n, put, call)
      && IsDoubleCalendar(specs, put, call, ctx.expiration, ctx.farExpiration.value);
    DoubleCalendarPays(ctx, specs, s, put, call, ctx.expiration, ctx.farExpiration.value);
  }

  /** Every structure a family yields has the family's payoff, kink by kink. */
  lemma ShapeOfFamily(family: Family, ctx: Context, s: Strategy)
    requires ctx.Listed() && s in Generate(family, ctx)
    ensures HasShape(family, ctx, s)
  {
    hide Context.Listed, Context.MakeLegs, Generate, OffersDebit, OffersCredit, OffersButterfly, OffersBrokenWing,
      OffersCondor, OffersIronButterfly, OffersStrangle, OffersBackspread, OffersCalendar, OffersDoubleCalendar,
      OffersDiagonal, DebitShape, CreditShape, ButterflyPeaks, BrokenWingPeaks, CondorPeaks, StrangleDips,
      BackspreadKicks, CalendarShape, DiagonalShape, Valley, Level, Context.Atm, IsLongVolatility;
    GeneratedExactlyWhen(family, ctx, s);
    var specs :| Offers(family, ctx, specs) && ctx.MakeLegs(specs) == Some(s.legs);
    match family
    case BullCallDebitSpread => DebitPays(ctx, Call, specs, s);
    case BearPutDebitSpread => DebitPays(ctx, Put, specs, s);
    case BullPutCreditSpread => CreditPays(ctx, Put, specs, s);
    case BearCallCreditSpread => CreditPays(ctx, Call, specs, s);
    case CallButterfly => EvenButterflyPays(ctx, Call, specs, s);
    case PutButterfly => EvenButterflyPays(ctx, Put, specs, s);
    case BrokenWingCallButterfly => BrokenWingPays(ctx, Call, specs, s);
    case BrokenWingPutButterfly => BrokenWingPays(ctx, Put, specs, s);
    case IronCondor | AsymmetricCondor | BrokenWingCondor => CondorPays(family, ctx, specs, s);
    case IronButterfly => IronButterflyPays(ctx, specs, s);
    case LongStraddle => LongVolatilityPays(ctx, specs, s, ctx.Atm(), ctx.Atm());
    case LongStrangle => StranglePays(ctx, specs, s);
    case CallBackspread => BackspreadPays(ctx, Call, specs, s);
    case PutBackspread => BackspreadPays(ctx, Put, specs, s);
    case BullishCalendar => CalendarPays(ctx, Call, specs, s);
    case BearishCalendar => CalendarPays(ctx, Put, specs, s);
    case DoubleCalendar => DoubleCalendarIsLevel(ctx, specs, s);
    case BullishDiagonal => DiagonalPays(ctx, Call, specs, s);
    case BearishDiagonal => DiagonalPays(ctx, Put, specs, s);
  }

  // ---------------------------------------------------------------- what the names promise

  ghost predicate RisesSomewhere(s: Strategy) {
    exists x, y :: 0.0 <= x < y && TerminalPayoff(s, x) < TerminalPayoff(s, y)
  }

  ghost predicate FallsSomewhere(s: Strategy) {
    exists x, y :: 0.0 <= x < y && TerminalPayoff(s, x) > TerminalPayoff(s, y)
  }

  ghost predicate IsBullish(s: Strategy) { NeverFalls(s) && RisesSomewhere(s) }

  ghost predicate IsBearish(s: Strategy) { NeverRises(s) && FallsSomewhere(s) }

  /** No spot pays more. */
  ghost predicate IsBest(s: Strategy, spot: real) {
    forall x | x >= 0.0 :: TerminalPayoff(s, x) <= TerminalPayoff(s, spot)
  }

  ghost predicate DiffersFrom(s: Strategy, top: real, difference: real) {
    forall x | x >= top :: TerminalPayoff(s, x) - TerminalPayoff(s, 0.0) == difference
  }

  /** What is paid far above the strikes less what is paid at zero. */
  ghost predicate TopLessBottom(s: Strategy, difference: real) {
    exists top :: DiffersFrom(s, top, difference)
  }

  ghost predicate PeaksAtCentre(ctx: Context, s: Strategy)
    requires ctx.Listed()
  {
    exists c :: IsCentre(ctx, c) && GreatestBetween(s, c, c)
  }

  ghost predicate PeaksBetweenShorts(family: Family, ctx: Context, s: Strategy)
    requires ctx.Listed()
  {
    exists put, call :: put < call && AreIronShorts(family, ctx, put, call) && GreatestBetween(s, put, call)
  }

  ghost predicate Dips(s: Strategy, put: real, call: real) {
    LeastBetween(s, put, call) && RisesWithoutBound(s)
  }

  /** Below its least point it gains a contract's worth per point of fall. */
  ghost predicate GainsByFalling(s: Strategy, least: real) {
    LeastBetween(s, least, least) && Down(s, 0.0, Finite(least))
  }

  /** What a family's name promises of the terminal payoff. */
  ghost predicate PaysAsNamed(family: Family, ctx: Context, s: Strategy)
    requires ctx.Listed()
  {
    match family
    case BullCallDebitSpread | BullishDiagonal => IsBullish(s)
    case BearPutDebitSpread | BearishDiagonal => IsBearish(s)
    case BullPutCreditSpread => IsBullish(s) && IsBest(s, ctx.spot)
    case BearCallCreditSpread => IsBearish(s) && (ctx.spot >= 0.0 ==> IsBest(s, ctx.spot))
    case CallButterfly | PutButterfly | IronButterfly => PeaksAtCentre(ctx, s) && TopLessBottom(s, 0.0)
    case BrokenWingCallButterfly => PeaksAtCentre(ctx, s) && exists d :: d < 0.0 && TopLessBottom(s, d)
    case BrokenWingPutButterfly => PeaksAtCentre(ctx, s) && exists d :: d > 0.0 && TopLessBottom(s, d)
    case IronCondor | AsymmetricCondor => PeaksBetweenShorts(family, ctx, s) && TopLessBottom(s, 0.0)
    case BrokenWingCondor => PeaksBetweenShorts(family, ctx, s) && exists d :: d != 0.0 && TopLessBottom(s, d)
    case LongStraddle => Dips(s, ctx.Atm(), ctx.Atm())
    case LongStrangle => exists put, call :: put < call && Dips(s, put, call)
    case CallBackspread => exists k :: Dips(s, k, k)
    case PutBackspread => exists k :: k > 0.0 && GainsByFalling(s, k)
    case BullishCalendar | BearishCalendar | DoubleCalendar => Level(s, 0.0, Infinite)
  }

  lemma RiseIsBullish(s: Strategy, a: real, b: real)
    requires Rises(s, a, b)
    ensures IsBullish(s) && forall x | x >= b :: IsBest(s, x)
  {
    RisesMeans(s, a, b);
    hide TerminalPayoff, Level, Up;
    forall x | x >= b ensures IsBest(s, x) {
      forall y | y >= 0.0 ensures TerminalPayoff(s, y) <= TerminalPayoff(s, x) {
        assert TerminalPayoff(s, Max(x, y)) == TerminalPayoff(s, b) == TerminalPayoff(s, x);
      }
    }
  }

  lemma FallIsBearish(s: Strategy, a: real, b: real)
    requires Falls(s, a, b)
    ensures IsBearish(s) && forall x | 0.0 <= x <= a :: IsBest(s, x)
  {
    FallsMeans(s, a, b);
    hide TerminalPayoff, Down;
    assert forall x | 0.0 <= x <= a :: TerminalPayoff(s, a) == TerminalPayoff(s, x);
    hide Level;
    forall x | 0.0 <= x <= a ensures IsBest(s, x) {
      forall y | y >= 0.0 ensures TerminalPayoff(s, y) <= TerminalPayoff(s, x) {
        assert TerminalPayoff(s, 0.0) == TerminalPayoff(s, x);
      }
    }
  }

  lemma DebitIsDirectional(ctx: Context, right: Right, s: Strategy)
    requires ctx.Listed() && DebitShape(ctx, right, s)
    ensures if right == Call then IsBullish(s) else IsBearish(s)
  {
    hide Context.Listed, IsAnchor, Rises, Falls, Steps, IsBullish, IsBearish, IsBest;
    var k, n: nat :| IsAnchor(ctx, k) && IsNarrow(n)
      && if right == Call then Rises(s, k, k + Steps(ctx, n)) else Falls(s, k - Steps(ctx, n), k);
    if right == Call { RiseIsBullish(s, k, k + Steps(ctx, n)); } else { FallIsBearish(s, k - Steps(ctx, n), k); }
  }

  lemma CreditIsDirectional(ctx: Context, right: Right, s: Strategy)
    requires ctx.Listed() && CreditShape(ctx, right, s)
    ensures if right == Put then IsBullish(s) && IsBest(s, ctx.spot)
            else IsBearish(s) && (ctx.spot >= 0.0 ==> IsBest(s, ctx.spot))
  {
    hide Context.Listed, FinishesAt, Rises, Falls, Steps, IsBullish, IsBearish, IsBest;
    var k, n: nat :| IsShort(ctx, right, k) && IsNarrow(n)
      && if right == Put then Rises(s, k - Steps(ctx, n), k) else Falls(s, k, k + Steps(ctx, n));
    if right == Put { RiseIsBullish(s, k - Steps(ctx, n), k); } else { FallIsBearish(s, k, k + Steps(ctx, n)); }
  }

  lemma DiagonalIsDirectional(ctx: Context, right: Right, s: Strategy)
    requires ctx.Listed() && DiagonalShape(ctx, right, s)
    ensures if right == Call then IsBullish(s) else IsBearish(s)
  {
    hide Context.Listed, FromMoney, Further, Rises, Falls, IsBullish, IsBearish, IsBest;
    var dir := Outward(right);
    var long, short :| FromMoney(ctx, -dir, long) && Further(ctx, dir, long, short)
      && if right == Call then Rises(s, long, short) else Falls(s, short, long);
    if right == Call { RiseIsBullish(s, long, short); } else { FallIsBearish(s, short, long); }
  }

  lemma TentEnds(s: Strategy, a: real, b: real, c: real, d: real)
    requires Tent(s, a, b, c, d)
    ensures GreatestBetween(s, b, c) && TopLessBottom(s, MULTIPLIER * ((b - a) - (d - c)))
  {
    TentMeans(s, a, b, c, d);
    hide TerminalPayoff, Tent;
    assert DiffersFrom(s, d, MULTIPLIER * ((b - a) - (d - c)));
  }

  lemma ButterflyIsNamed(ctx: Context, s: Strategy)
    requires ctx.Listed() && ButterflyPeaks(ctx, s)
    ensures PeaksAtCentre(ctx, s) && TopLessBottom(s, 0.0)
  {
    hide Context.Listed, IsCentre, Tent, Steps, GreatestBetween, TopLessBottom;
    var c, n: nat :| IsCentre(ctx, c) && IsWing(n) && Tent(s, c - Steps(ctx, n), c, c, c + Steps(ctx, n));
    TentEnds(s, c - Steps(ctx, n), c, c, c + Steps(ctx, n));
  }

  lemma StepsIncrease(ctx: Context, m: nat, n: nat)
    requires m < n
    ensures Steps(ctx, m) < Steps(ctx, n)
  {
    ProductPositive((n - m) as real, ctx.StrikeStep());
    assert Steps(ctx, n) - Steps(ctx, m) == (n - m) as real * ctx.StrikeStep();
  }

  lemma BrokenWingIsNamed(ctx: Context, right: Right, s: Strategy)
    requires ctx.Listed() && BrokenWingPeaks(ctx, right, s)
    ensures PeaksAtCentre(ctx, s)
    ensures exists d :: TopLessBottom(s, d) && if right == Call then d < 0.0 else d > 0.0
  {
    hide Context.Listed, IsCentre, Tent, Steps, GreatestBetween, TopLessBottom;
    var c, near: nat, far: nat :| IsCentre(ctx, c) && IsBrokenWing(near, far)
      && if right == Call then Tent(s, c - Steps(ctx, near), c, c, c + Steps(ctx, far))
         else Tent(s, c - Steps(ctx, far), c, c, c + Steps(ctx, near));
    StepsIncrease(ctx, near, far);
    if right == Call {
      TentEnds(s, c - Steps(ctx, near), c, c, c + Steps(ctx, far));
    } else {
      TentEnds(s, c - Steps(ctx, far), c, c, c + Steps(ctx, near));
    }
  }

  lemma CondorIsNamed(family: Family, ctx: Context, s: Strategy)
    requires ctx.Listed() && CondorPeaks(family, ctx, s)
    ensures PeaksBetweenShorts(family, ctx, s)
    ensures exists d :: TopLessBottom(s, d) && (d == 0.0 <==> !family.BrokenWingCondor?)
  {
    hide Context.Listed, AreIronShorts, Tent, Steps, GreatestBetween, TopLessBottom;
    var put, call, m: nat, n: nat :| put < call && AreIronShorts(family, ctx, put, call) && IsIronWings(family, m, n)
      && Tent(s, put - Steps(ctx, m), put, call, call + Steps(ctx, n));
    TentEnds(s, put - Steps(ctx, m), put, call, call + Steps(ctx, n));
    if m < n { StepsIncrease(ctx, m, n); }
    if n < m { StepsIncrease(ctx, n, m); }
    assert TopLessBottom(s, MULTIPLIER * (Steps(ctx, m) - Steps(ctx, n)));
  }

  lemma ValleyDips(s: Strategy, put: real, call: real)
    requires Valley(s, put, call)
    ensures Dips(s, put, call)
  {
    ValleyMeans(s, put, call);
    UpIsUnbounded(s, call);
  }

  lemma BackspreadIsNamed(ctx: Context, right: Right, s: Strategy)
    requires ctx.Listed() && BackspreadKicks(ctx, right, s)
    ensures right == Call ==> exists k :: Dips(s, k, k)
    ensures right == Put ==> exists k :: k > 0.0 && GainsByFalling(s, k)
  {
    hide Context.Listed, FromMoney, Further, Level, Up, Down, LeastBetween, RisesWithoutBound;
    var dir := Outward(right);
    var short, long :| (FromMoney(ctx, 0, short) || FromMoney(ctx, dir, short)) && Further(ctx, dir, short, long)
      && if right == Call then KicksUp(s, short, long) else KicksDown(s, long, short);
    if right == Call {
      KicksUpMeans(s, short, long);
      assert Dips(s, long, long);
    } else {
      KicksDownMeans(s, long, short);
      assert GainsByFalling(s, long);
    }
  }

  /** Every structure a family yields pays at expiration what the family's name promises. */
  lemma FamilyPaysAsNamed(family: Family, ctx: Context, s: Strategy)
    requires ctx.Listed() && s in Generate(family, ctx)
    ensures PaysAsNamed(family, ctx, s)
  {
    ShapeOfFamily(family, ctx, s);
    hide Context.Listed, Generate, DebitShape, CreditShape, ButterflyPeaks, BrokenWingPeaks, CondorPeaks,
      BackspreadKicks, DiagonalShape, Valley, Level, Context.Atm, IsBullish, IsBearish, IsBest, PeaksAtCentre,
      PeaksBetweenShorts, TopLessBottom, Dips, GainsByFalling, FromMoney, Further;
    match family
    case BullCallDebitSpread => DebitIsDirectional(ctx, Call, s);
    case BearPutDebitSpread => DebitIsDirectional(ctx, Put, s);
    case BullPutCreditSpread => CreditIsDirectional(ctx, Put, s);
    case BearCallCreditSpread => CreditIsDirectional(ctx, Call, s);
    case CallButterfly | PutButterfly | IronButterfly => ButterflyIsNamed(ctx, s);
    case BrokenWingCallButterfly => BrokenWingIsNamed(ctx, Call, s);
    case BrokenWingPutButterfly => BrokenWingIsNamed(ctx, Put, s);
    case IronCondor | AsymmetricCondor | BrokenWingCondor => CondorIsNamed(family, ctx, s);
    case LongStraddle => ValleyDips(s, ctx.Atm(), ctx.Atm());
    case LongStrangle =>
      var put, call, n: nat :| put < call && IsWing(n) && AroundMoney(ctx, n, put, call) && Valley(s, put, call);
      ValleyDips(s, put, call);
    case CallBackspread => BackspreadIsNamed(ctx, Call, s);
    case PutBackspread => BackspreadIsNamed(ctx, Put, s);
    case BullishDiagonal => DiagonalIsDirectional(ctx, Call, s);
    case BearishDiagonal => DiagonalIsDirectional(ctx, Put, s);
    case BullishCalendar => CalendarIsLevel(ctx, Call, s);
    case BearishCalendar => CalendarIsLevel(ctx, Put, s);
    case DoubleCalendar =>
  }

  lemma CalendarIsLevel(ctx: Context, right: Right, s: Strategy)
    requires ctx.Listed() && CalendarShape(ctx, right, s)
    ensures Level(s, 0.0, Infinite)
  {
    hide Context.Listed, CalendarStrike, OnStrike, Level;
  }

  // ---------------------------------------------------------------- how far a put backspread can gain

  /** Two long puts at `long` against one short put at `short`, above it. */
  ghost predicate IsPutBackspread(ctx: Context, s: Strategy, short: real, long: real)
    requires ctx.Listed()
  {
    && long < short
    && ctx.MakeLegs([Spec(short, Put, -1, ctx.expiration), Spec(long, Put, 2, ctx.expiration)]) == Some(s.legs)
  }

  /** A fall brings a put backspread into profit exactly when the twice owned lower strike exceeds the
      upper one by more than was paid. */
  lemma PutBackspreadProfitsExactlyWhen(ctx: Context, s: Strategy)
    returns (short: real, long: real)
    requires ctx.Listed() && s in Generate(PutBackspread, ctx)
    ensures IsPutBackspread(ctx, s, short, long)
    ensures (exists x :: 0.0 <= x <= long && TerminalPayoff(s, x) > 0.0)
        <==> MULTIPLIER * (long + long - short) > NetEntryCost(s.legs)
  {
    hide Context.MakeLegs, Context.Listed, Generate, FromMoney, Further, TerminalPayoff, NetEntryCost, LegWorth;
    GeneratedExactlyWhen(PutBackspread, ctx, s);
    var specs :| OffersBackspread(ctx, Put, specs) && ctx.MakeLegs(specs) == Some(s.legs);
    short, long :| (FromMoney(ctx, 0, short) || FromMoney(ctx, -1, short)) && Further(ctx, -1, short, long)
      && IsRatio(specs, short, long, Put, ctx.expiration);
    FurtherIsBeyond(ctx, -1, short, long);
    RatioPays(ctx, specs, s, short, long, Put);
    KicksDownMeans(s, long, short);
    TwoLegs(ctx, specs, s, short);
    LegWorths(specs[0], short);
    LegWorths(specs[1], short);
    assert TerminalPayoff(s, short) == -NetEntryCost(s.legs);
    assert forall x | 0.0 <= x <= long :: TerminalPayoff(s, x) <= TerminalPayoff(s, 0.0);
    assert KicksDown(s, long, short);
  }

  /** Strikes 1 and 3 quoted on both rights, the 1 put at 0.25 and the 3 put at 1. */
  predicate TwoStrikeChain(ctx: Context) {
    && |ctx.chain| == 4 && (forall q | q in ctx.chain :: q.expiration == ctx.expiration)
    && (ctx.chain[0].strike, ctx.chain[0].right) == (1.0, Call)
    && (ctx.chain[1].strike, ctx.chain[1].right) == (3.0, Call)
    && (ctx.chain[2].strike, ctx.chain[2].right) == (1.0, Put)
    && (ctx.chain[3].strike, ctx.chain[3].right) == (3.0, Put)
    && ctx.chain[2].bid == ctx.chain[2].ask == 0.25 && ctx.chain[3].bid == ctx.chain[3].ask == 1.0
    && ctx.spot == 3.0
  }

  lemma TwoStrikes(ctx: Context)
    requires TwoStrikeChain(ctx)
    ensures ctx.Strikes() == [1.0, 3.0]
  {
    var q := ctx.chain;
    BothRightsAreQuoted(ctx);
    hide Context.StrikesOf, TwoStrikeChain;
    assert ctx.QuotedOnBoth(q[4..]) == [];
    InsertsAre();
    hide Context.QuotedOnBoth, Insert;
    GatherOne(ctx, 3, 3.0, []);
    GatherOne(ctx, 2, 1.0, [3.0]);
    GatherOne(ctx, 1, 3.0, [1.0, 3.0]);
    GatherOne(ctx, 0, 1.0, [1.0, 3.0]);
    assert q[0..] == q;
  }

  lemma BothRightsAreQuoted(ctx: Context)
    requires TwoStrikeChain(ctx)
    ensures 1.0 in ctx.StrikesOf(Call) && 3.0 in ctx.StrikesOf(Call)
    ensures 1.0 in ctx.StrikesOf(Put) && 3.0 in ctx.StrikesOf(Put)
    ensures |ctx.chain| == 4 && ctx.chain[0].strike == ctx.chain[2].strike == 1.0
    ensures ctx.chain[1].strike == ctx.chain[3].strike == 3.0
  {
    var q := ctx.chain;
    assert q[0] in q && q[1] in q && q[2] in q && q[3] in q;
  }

  lemma InsertsAre()
    ensures Insert(3.0, []) == [3.0] && Insert(1.0, [3.0]) == [1.0, 3.0]
    ensures Insert(3.0, [1.0, 3.0]) == [1.0, 3.0] && Insert(1.0, [1.0, 3.0]) == [1.0, 3.0]
  {
    assert [1.0, 3.0][1..] == [3.0];
  }

  lemma GatherOne(ctx: Context, i: nat, k: real, rest: seq<real>)
    requires i < |ctx.chain| && ctx.chain[i].strike == k && ctx.QuotedOnBoth(ctx.chain[i + 1..]) == rest
    requires k in ctx.StrikesOf(Call) && k in ctx.StrikesOf(Put) && Increasing(rest)
    ensures ctx.QuotedOnBoth(ctx.chain[i..]) == Insert(k, rest)
  {
    hide Insert, Context.StrikesOf;
    assert ctx.chain[i..][1..] == ctx.chain[i + 1..];
  }

  lemma LockedQuotePays(ctx: Context, q: Quote, buying: bool)
    requires q.bid == q.ask >= 0.01
    ensures ctx.ExecutionPrice(q, buying) == q.bid == q.Mid()
  {
  }

  lemma CostOfTwo(legs: seq<Leg>)
    requires |legs| == 2 && legs[0].quantity == -1 && legs[1].quantity == 2
    ensures NetEntryCost(legs) == -100.0 * legs[0].entryPrice + 200.0 * legs[1].entryPrice
  {
    var w, p := Weights(legs), EntryPrices(legs);
    assert Dot(w[1..], p[1..]) == w[1] * p[1] + Dot(w[1..][1..], p[1..][1..]);
    assert w[1..][1..] == [] && p[1..][1..] == [];
  }

  lemma TwoStrikeLegs(ctx: Context)
    requires ctx.Listed() && TwoStrikeChain(ctx)
    ensures ctx.MakeLegs([Spec(3.0, Put, -1, ctx.expiration), Spec(1.0, Put, 2, ctx.expiration)])
         == Some([LegRecord(ctx.expiration, 3.0, Put, -1, 1.0, ctx.chain[3].iv),
                  LegRecord(ctx.expiration, 1.0, Put, 2, 0.25, ctx.chain[2].iv)])
  {
    hide Context.Listed, Context.MakeLegs;
    var q := ctx.chain;
    assert q == [q[0], q[1], q[2], q[3]];
    var three, one := Spec(3.0, Put, -1, ctx.expiration), Spec(1.0, Put, 2, ctx.expiration);
    assert ctx.Lookup(q, three.Key()) == Some(q[3]);
    assert q[..3][2] == q[2] && q[2].strike != 3.0;
    assert ctx.Lookup(q[..3], one.Key()) == Some(q[2]);
    assert ctx.Lookup(q, one.Key()) == Some(q[2]);
    LockedQuotePays(ctx, q[3], false);
    LockedQuotePays(ctx, q[2], true);
    hide Context.Lookup, Context.ExecutionPrice;
    MakeLegsIsAllOrNothing(ctx, [three, one]);
    assert [three, one][0] == three && [three, one][1] == one;
    var legs := ctx.MakeLegs([three, one]).value;
    assert legs == [legs[0], legs[1]];
  }

  lemma TwoStrikesOffer(ctx: Context)
    requires ctx.Listed() && TwoStrikeChain(ctx)
    ensures OffersBackspread(ctx, Put, [Spec(3.0, Put, -1, ctx.expiration), Spec(1.0, Put, 2, ctx.expiration)])
  {
    TwoStrikes(ctx);
    assert ctx.StrikeStep() == 2.0 && ctx.Atm() == 3.0;
    assert Steps(ctx, 0) == 0.0 && Steps(ctx, -1) == -2.0;
    hide Context.Listed, Context.Strikes, Context.StrikeStep, Context.Atm, Steps;
    assert FromMoney(ctx, 0, 3.0) && Apart(ctx, -1, 3.0, 1.0);
    hide FromMoney, Apart;
    assert Further(ctx, -1, 3.0, 1.0);
    assert IsRatio([Spec(3.0, Put, -1, ctx.expiration), Spec(1.0, Put, 2, ctx.expiration)], 3.0, 1.0, Put,
                   ctx.expiration);
    hide Further, IsRatio;
  }

  lemma TwoStrikesYield(ctx: Context, specs: seq<Spec>, s: Strategy)
    requires ctx.Listed() && OffersBackspread(ctx, Put, specs) && ctx.MakeLegs(specs) == Some(s.legs)
    requires s.family == PutBackspread
    ensures s in Generate(PutBackspread, ctx)
  {
    hide Context.Listed, Context.MakeLegs, Generate, OffersBackspread;
    assert Offers(PutBackspread, ctx, specs);
    GeneratedExactlyWhen(PutBackspread, ctx, s);
  }

  /** A put backspread that no fall brings into profit. */
  lemma BackspreadThatNeverGains(ctx: Context) returns (s: Strategy)
    requires ctx.Listed() && TwoStrikeChain(ctx)
    ensures s in Generate(PutBackspread, ctx) && forall x | 0.0 <= x <= 1.0 :: TerminalPayoff(s, x) <= 0.0
  {
    TwoStrikesOffer(ctx);
    TwoStrikeLegs(ctx);
    hide Context.Listed, Context.MakeLegs, Generate, TerminalPayoff, NetEntryCost, OffersBackspread, TwoStrikeChain,
      IsPutBackspread;
    var specs := [Spec(3.0, Put, -1, ctx.expiration), Spec(1.0, Put, 2, ctx.expiration)];
    s := StructureRecord(PutBackspread, ctx.MakeLegs(specs).value);
    TwoStrikesYield(ctx, specs, s);
    var short, long := PutBackspreadProfitsExactlyWhen(ctx, s);
    PutBackspreadStrikes(ctx, s, short, long);
    CostOfTwo(s.legs);
  }

  lemma PutBackspreadStrikes(ctx: Context, s: Strategy, short: real, long: real)
    requires ctx.Listed() && IsPutBackspread(ctx, s, short, long)
    ensures |s.legs| == 2 && s.legs[0].strike == short && s.legs[1].strike == long
  {
    hide Context.Listed, Context.MakeLegs;
    var specs := [Spec(short, Put, -1, ctx.expiration), Spec(long, Put, 2, ctx.expiration)];
    assert specs[0].Matches(s.legs[0]) && specs[1].Matches(s.legs[1]);
  }

  // ---------------------------------------------------------------- when the legs expire

  /** Long legs expire at the far date and short ones at the near date; otherwise all expire together. */
  ghost predicate IsDated(family: Family, ctx: Context, s: Strategy) {
    if family.IsCalendarized() then
      && HasFar(ctx)
      && (forall l | l in s.legs :: l.expiry == if l.IsLong() then ctx.farExpiration.value else ctx.expiration)
      && (exists l :: l in s.legs && l.IsLong()) && (exists l :: l in s.legs && !l.IsLong())
    else forall l | l in s.legs :: l.expiry == ctx.expiration
  }

  ghost predicate AreDated(family: Family, ctx: Context, specs: seq<Spec>) {
    if family.IsCalendarized() then
      && HasFar(ctx)
      && (forall i | 0 <= i < |specs| ::
            specs[i].expiry == if specs[i].quantity > 0 then ctx.farExpiration.value else ctx.expiration)
      && |specs| >= 2 && specs[0].quantity < 0 < specs[1].quantity
    else forall i | 0 <= i < |specs| :: specs[i].expiry == ctx.expiration
  }

  lemma OffersAreDated(family: Family, ctx: Context, specs: seq<Spec>)
    requires ctx.Listed() && Offers(family, ctx, specs)
    ensures AreDated(family, ctx, specs)
  {
    hide Context.Listed, Steps, IsAnchor, IsShort, IsCentre, IsNarrow, IsWing, IsBrokenWing, AreIronShorts, IsIronWings,
      AroundMoney, FromMoney, Further, CalendarStrike;
  }

  /** Calendars and diagonals are long the far expiration and short the near one. */
  lemma FamilyIsDated(family: Family, ctx: Context, s: Strategy)
    requires ctx.Listed() && s in Generate(family, ctx)
    ensures IsDated(family, ctx, s)
  {
    hide Context.Listed, Context.MakeLegs, Generate, Offers;
    GeneratedExactlyWhen(family, ctx, s);
    var specs: seq<Spec> :| Offers(family, ctx, specs) && ctx.MakeLegs(specs) == Some(s.legs);
    OffersAreDated(family, ctx, specs);
    assert forall i | 0 <= i < |specs| :: specs[i].Matches(s.legs[i]);
    if family.IsCalendarized() {
      assert s.legs[0] in s.legs && s.legs[1] in s.legs;
    }
  }
}
