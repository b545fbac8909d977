/** Which structures each of the 21 families yields, stated from the strikes, and what they pay. */
module Families {
  import opened Options
  import opened Market
  import opened Vectors
  import opened Payoff
  import opened Coverage
  import opened Generators

  // ---------------------------------------------------------------- everything a loop yields

  lemma {:induction false} InnerYields<A(!new), B(!new)>(ctx: Context, family: Family, x: A, ys: seq<B>,
      build: (A, B) -> seq<Spec>, s: Strategy)
    requires ctx.Listed()
    requires forall y | y in ys :: Sound(build(x, y), family.IsCalendarized())
    ensures s in ForInner(ctx, family, x, ys, build) <==>
      s.family == family && exists y :: y in ys && ctx.MakeLegs(build(x, y)) == Some(s.legs)
  {
    hide Sound, Context.MakeLegs, Context.Listed;
    if ys != [] {
      assert ys[0] in ys && forall y | y in ys[1..] :: y in ys;
      InnerYields(ctx, family, x, ys[1..], build, s);
      assert forall y :: y in ys <==> y == ys[0] || y in ys[1..];
    }
  }

  /** The nested loops yield exactly the quotable structures of their combinations. */
  lemma {:induction false} LoopYields<A(!new), B(!new)>(ctx: Context, family: Family, xs: seq<A>, ys: seq<B>,
      build: (A, B) -> seq<Spec>, s: Strategy)
    requires ctx.Listed()
    requires forall x, y | x in xs && y in ys :: Sound(build(x, y), family.IsCalendarized())
    ensures s in ForEach(ctx, family, xs, ys, build) <==>
      s.family == family && exists x, y :: x in xs && y in ys && ctx.MakeLegs(build(x, y)) == Some(s.legs)
  {
    hide Sound, Context.MakeLegs, Context.Listed, ForInner;
    if xs != [] {
      assert xs[0] in xs && forall x | x in xs[1..] :: x in xs;
      InnerYields(ctx, family, xs[0], ys, build, s);
      LoopYields(ctx, family, xs[1..], ys, build, s);
      assert forall x :: x in xs <==> x == xs[0] || x in xs[1..];
    }
  }

  ghost predicate Combines<A(!new), B(!new)>(xs: seq<A>, ys: seq<B>, build: (A, B) -> seq<Spec>, specs: seq<Spec>) {
    exists x, y :: x in xs && y in ys && build(x, y) == specs
  }

  lemma LoopQuotes<A(!new), B(!new)>(ctx: Context, family: Family, xs: seq<A>, ys: seq<B>,
      build: (A, B) -> seq<Spec>, s: Strategy)
    requires ctx.Listed()
    requires forall x, y | x in xs && y in ys :: Sound(build(x, y), family.IsCalendarized())
    ensures s in ForEach(ctx, family, xs, ys, build) <==>
      s.family == family && exists specs :: Combines(xs, ys, build, specs) && ctx.MakeLegs(specs) == Some(s.legs)
  {
    hide Sound, Context.MakeLegs, Context.Listed, ForEach;
    LoopYields(ctx, family, xs, ys, build, s);
    if x, y :| x in xs && y in ys && ctx.MakeLegs(build(x, y)) == Some(s.legs) {
      assert Combines(xs, ys, build, build(x, y));
    }
  }

  // ---------------------------------------------------------------- the strikes families are built on

  /** `n` steps. */
  function Steps(ctx: Context, n: int): real { Offset(n, ctx.StrikeStep()) }

  ghost predicate IsMedian(ctx: Context, k: real)
    requires ctx.Listed()
  {
    ctx.quantile.Some? && k == ctx.Snap(ctx.quantile.value(0.5))
  }

  /** A strike within a step of the money, or the forecast median. */
  ghost predicate IsAnchor(ctx: Context, k: real)
    requires ctx.Listed()
  {
    var atm := ctx.Atm();
    || k == ctx.Snap(atm - ctx.StrikeStep()) || k == ctx.Snap(atm) || k == ctx.Snap(atm + ctx.StrikeStep())
    || IsMedian(ctx, k)
  }

  lemma AnchorsAre(ctx: Context, k: real)
    requires ctx.Listed()
    ensures k in Anchors(ctx) <==> IsAnchor(ctx, k)
  {
    hide Context.Snap, Context.StrikeStep, Context.Atm, Context.Listed;
    var atm, step := ctx.Atm(), ctx.StrikeStep();
    InFour(k, ctx.Snap(atm - step), ctx.Snap(atm), ctx.Snap(atm + step), Median(ctx));
    assert k in Median(ctx) <==> IsMedian(ctx, k);
    hide Median, IsMedian, SortedDistinct;
  }

  lemma InFour(k: real, a: real, b: real, c: real, rest: seq<real>)
    ensures k in [a, b, c] + rest <==> k == a || k == b || k == c || k in rest
  {
  }

  /** The money, the pin or the forecast median. */
  ghost predicate IsCentre(ctx: Context, k: real)
    requires ctx.Listed()
  {
    k == ctx.Atm() || (ctx.pinStrike.Some? && k == ctx.Snap(ctx.pinStrike.value)) || IsMedian(ctx, k)
  }

  lemma CentresAre(ctx: Context, k: real)
    requires ctx.Listed()
    ensures k in ButterflyCentres(ctx) <==> IsCentre(ctx, k)
  {
    hide Context.Snap, Context.StrikeStep, Context.Atm;
    var listed := [ctx.Atm()] + (if ctx.pinStrike.Some? then [ctx.Snap(ctx.pinStrike.value)] else []) + Median(ctx);
    assert k in ButterflyCentres(ctx) <==> k in listed;
  }

  /** The strike the forecast leaves in the money with this probability. */
  ghost predicate FinishesAt(ctx: Context, probability: real, right: Right, k: real)
    requires ctx.Listed()
  {
    && ctx.quantile.Some?
    && var tau := if right == Call then 1.0 - probability else probability;
       k == ctx.Snap(ctx.quantile.value(Min(Max(tau, 0.001), 0.999)))
  }

  predicate OutOfTheMoney(right: Right, k: real, spot: real) { if right == Put then k < spot else k > spot }

  lemma FinishIs(ctx: Context, probability: real, right: Right, k: real)
    requires ctx.Listed()
    ensures ctx.StrikeAtFinishProbability(probability, right) == Some(k) <==> FinishesAt(ctx, probability, right, k)
  {
    hide Context.Snap, Context.Listed;
  }

  lemma {:induction false} ShortStrikesAre(ctx: Context, probabilities: seq<real>, right: Right, k: real)
    requires ctx.Listed()
    ensures k in ShortStrikes(ctx, probabilities, right) <==>
      OutOfTheMoney(right, k, ctx.spot) && exists p :: p in probabilities && FinishesAt(ctx, p, right, k)
  {
    hide Context.StrikeAtFinishProbability, FinishesAt, Context.Listed;
    if probabilities != [] {
      ShortStrikesAre(ctx, probabilities[1..], right, k);
      FinishIs(ctx, probabilities[0], right, k);
      assert probabilities == [probabilities[0]] + probabilities[1..];
    }
  }

  lemma {:induction false} ShortPairsAre(ctx: Context, probabilities: seq<(real, real)>, s: Shorts)
    requires ctx.Listed()
    ensures s in ShortPairs(ctx, probabilities) <==>
      exists p :: p in probabilities && FinishesAt(ctx, p.0, Put, s.put) && FinishesAt(ctx, p.1, Call, s.call)
  {
    hide Context.StrikeAtFinishProbability, FinishesAt, Context.Listed;
    if probabilities != [] {
      ShortPairsAre(ctx, probabilities[1..], s);
      FinishIs(ctx, probabilities[0].0, Put, s.put);
      FinishIs(ctx, probabilities[0].1, Call, s.call);
      assert probabilities == [probabilities[0]] + probabilities[1..];
    }
  }

  /** The strikes `n` steps either side of the money. */
  ghost predicate AroundMoney(ctx: Context, n: int, put: real, call: real)
    requires ctx.Listed()
  {
    call == ctx.Snap(ctx.Atm() + Steps(ctx, n)) && put == ctx.Snap(ctx.Atm() - Steps(ctx, n))
  }

  lemma StrangleAtIs(ctx: Context, n: pos, s: Shorts)
    requires ctx.Listed()
    ensures s in StrangleAt(ctx, n) <==> AroundMoney(ctx, n, s.put, s.call)
  {
    hide Context.Snap, Context.Listed, Context.StrikeStep, Context.Atm, Offset;
  }

  lemma {:induction false} StrangleStrikesAre(ctx: Context, widths: seq<pos>, s: Shorts)
    requires ctx.Listed()
    ensures s in StrangleStrikes(ctx, widths) <==> exists n: pos :: n in widths && AroundMoney(ctx, n, s.put, s.call)
  {
    hide StrangleAt, AroundMoney, Context.Listed;
    if widths != [] {
      StrangleStrikesAre(ctx, widths[1..], s);
      StrangleAtIs(ctx, widths[0], s);
      assert widths == [widths[0]] + widths[1..];
    }
  }

  /** `second` is as many steps as `width` from `first`, strictly on that side. */
  ghost predicate Apart(ctx: Context, width: int, first: real, second: real)
    requires ctx.Listed()
  {
    second == ctx.Snap(first + Steps(ctx, width)) && (if width > 0 then second > first else second < first)
  }

  /** `first` is `offset` steps from the money. */
  ghost predicate FromMoney(ctx: Context, offset: int, first: real)
    requires ctx.Listed()
  {
    first == ctx.Snap(ctx.Atm() + Steps(ctx, offset))
  }

  lemma PairAtIs(ctx: Context, first: real, width: int, p: Snapped)
    requires ctx.Listed()
    ensures p in PairAt(ctx, first, width) <==> p.first == first && Apart(ctx, width, first, p.second)
  {
    hide Context.Snap, Context.Listed, Context.StrikeStep, Offset;
  }

  lemma {:induction false} PairsFromAre(ctx: Context, first: real, widths: seq<int>, p: Snapped)
    requires ctx.Listed()
    ensures p in PairsFrom(ctx, first, widths) <==>
      p.first == first && exists w :: w in widths && Apart(ctx, w, first, p.second)
  {
    hide PairAt, Apart, Context.Listed;
    if widths != [] {
      PairsFromAre(ctx, first, widths[1..], p);
      PairAtIs(ctx, first, widths[0], p);
      assert widths == [widths[0]] + widths[1..];
    }
  }

  lemma {:induction false} SnappedPairsAre(ctx: Context, offsets: seq<int>, widths: seq<int>, p: Snapped)
    requires ctx.Listed()
    ensures p in SnappedPairs(ctx, offsets, widths) <==>
      (exists o :: o in offsets && FromMoney(ctx, o, p.first)) && SomeApart(ctx, widths, p.first, p.second)
  {
    hide PairsFrom, FromMoney, SomeApart, Context.Listed, Context.Snap, Context.Atm, Context.StrikeStep, Offset;
    if offsets != [] {
      SnappedPairsAre(ctx, offsets[1..], widths, p);
      PairsAtMoney(ctx, offsets[0], widths, p);
      assert offsets == [offsets[0]] + offsets[1..];
    }
  }

  ghost predicate SomeApart(ctx: Context, widths: seq<int>, first: real, second: real)
    requires ctx.Listed()
  {
    exists w :: w in widths && Apart(ctx, w, first, second)
  }

  lemma PairsAtMoney(ctx: Context, offset: int, widths: seq<int>, p: Snapped)
    requires ctx.Listed()
    ensures p in PairsFrom(ctx, ctx.Snap(ctx.Atm() + Offset(offset, ctx.StrikeStep())), widths) <==>
      FromMoney(ctx, offset, p.first) && SomeApart(ctx, widths, p.first, p.second)
  {
    hide Context.Snap, Context.Listed, Context.StrikeStep, Context.Atm, Offset, PairsFrom, Apart;
    PairsFromAre(ctx, ctx.Snap(ctx.Atm() + Offset(offset, ctx.StrikeStep())), widths, p);
  }

  // ---------------------------------------------------------------- what each family offers

  predicate IsNarrow(n: nat) { n == 1 || n == 2 || n == 3 || n == 5 }

  predicate IsWing(n: nat) { n == 2 || n == 3 || n == 5 }

  /** A debit spread: long an anchor, short further in the money's direction. */
  ghost predicate OffersDebit(ctx: Context, right: Right, specs: seq<Spec>)
    requires ctx.Listed()
  {
    exists k, n: nat :: IsAnchor(ctx, k) && IsNarrow(n) && specs == DebitOf(ctx, right, k, n)
  }

  function DebitOf(ctx: Context, right: Right, k: real, n: nat): seq<Spec> {
    [Spec(k, right, 1, ctx.expiration),
     Spec(if right == Call then k + Steps(ctx, n) else k - Steps(ctx, n), right, -1, ctx.expiration)]
  }

  ghost predicate IsShort(ctx: Context, right: Right, k: real)
    requires ctx.Listed()
  {
    OutOfTheMoney(right, k, ctx.spot)
    && (FinishesAt(ctx, 0.10, right, k) || FinishesAt(ctx, 0.16, right, k) || FinishesAt(ctx, 0.25, right, k))
  }

  /** A credit spread: short out of the money, long further out. */
  ghost predicate OffersCredit(ctx: Context, right: Right, specs: seq<Spec>)
    requires ctx.Listed()
  {
    exists k, n: nat :: IsShort(ctx, right, k) && IsNarrow(n) && specs == CreditOf(ctx, right, k, n)
  }

  function CreditOf(ctx: Context, right: Right, k: real, n: nat): seq<Spec> {
    [Spec(k, right, -1, ctx.expiration),
     Spec(if right == Call then k + Steps(ctx, n) else k - Steps(ctx, n), right, 1, ctx.expiration)]
  }

  ghost predicate OffersButterfly(ctx: Context, right: Right, specs: seq<Spec>)
    requires ctx.Listed()
  {
    exists c, n: nat :: IsCentre(ctx, c) && IsWing(n) && specs == ButterflyOf(ctx, right, c, n)
  }

  function ButterflyOf(ctx: Context, right: Right, c: real, n: nat): seq<Spec> {
    [Spec(c - Steps(ctx, n), right, 1, ctx.expiration), Spec(c, right, -2, ctx.expiration),
     Spec(c + Steps(ctx, n), right, 1, ctx.expiration)]
  }

  predicate IsBrokenWing(near: nat, far: nat) { 1 <= near <= 3 && near + 1 <= far <= near + 2 }

  /** The far wing, one or two steps wider, lies above for calls and below for puts. */
  ghost predicate OffersBrokenWing(ctx: Context, right: Right, specs: seq<Spec>)
    requires ctx.Listed()
  {
    exists c, near: nat, far: nat :: IsCentre(ctx, c) && IsBrokenWing(near, far)
      && specs == BrokenWingOf(ctx, right, c, near, far)
  }

  /** Short a put and a call, long a put `m` steps below and a call `n` steps above. */
  function IronOf(ctx: Context, put: real, call: real, m: nat, n: nat): seq<Spec> {
    var e := ctx.expiration;
    [Spec(put - Steps(ctx, m), Put, 1, e), Spec(put, Put, -1, e), Spec(call, Call, -1, e),
     Spec(call + Steps(ctx, n), Call, 1, e)]
  }

  predicate IsIronWings(family: Family, put: nat, call: nat) {
    match family
    case IronCondor => put == call && IsWing(put)
    case AsymmetricCondor => put == call && (put == 2 || put == 3)
    case BrokenWingCondor => (put == 2 && call == 5) || (put == 5 && call == 2)
    case _ => false
  }

  ghost predicate AreIronShorts(family: Family, ctx: Context, put: real, call: real)
    requires ctx.Listed()
  {
    match family
    case IronCondor => BothFinish(ctx, 0.10, 0.10, put, call) || BothFinish(ctx, 0.16, 0.16, put, call)
                       || BothFinish(ctx, 0.25, 0.25, put, call)
    case AsymmetricCondor => BothFinish(ctx, 0.10, 0.28, put, call) || BothFinish(ctx, 0.28, 0.10, put, call)
                             || BothFinish(ctx, 0.16, 0.34, put, call)
    case BrokenWingCondor => BothFinish(ctx, 0.16, 0.16, put, call) || BothFinish(ctx, 0.25, 0.25, put, call)
    case _ => false
  }

  ghost predicate BothFinish(ctx: Context, p: real, q: real, put: real, call: real)
    requires ctx.Listed()
  {
    FinishesAt(ctx, p, Put, put) && FinishesAt(ctx, q, Call, call)
  }

  ghost predicate OffersCondor(family: Family, ctx: Context, specs: seq<Spec>)
    requires ctx.Listed()
  {
    exists put, call, m: nat, n: nat :: put < call && AreIronShorts(family, ctx, put, call) && IsIronWings(family, m, n)
      && specs == IronOf(ctx, put, call, m, n)
  }

  ghost predicate OffersIronButterfly(ctx: Context, specs: seq<Spec>)
    requires ctx.Listed()
  {
    exists c, n: nat :: IsCentre(ctx, c) && IsWing(n)
      && specs == IronOf(ctx, c, c, n, n)
  }

  predicate IsLongVolatility(specs: seq<Spec>, put: real, call: real, e: Instant) {
    specs == [Spec(call, Call, 1, e), Spec(put, Put, 1, e)]
  }

  ghost predicate OffersStrangle(ctx: Context, specs: seq<Spec>)
    requires ctx.Listed()
  {
    exists put, call, n: nat :: put < call && IsWing(n) && AroundMoney(ctx, n, put, call)
      && IsLongVolatility(specs, put, call, ctx.expiration)
  }

  predicate IsRatio(specs: seq<Spec>, short: real, long: real, right: Right, e: Instant) {
    specs == [Spec(short, right, -1, e), Spec(long, right, 2, e)]
  }

  /** Short one at or beside the money, long two further out. */
  ghost predicate OffersBackspread(ctx: Context, right: Right, specs: seq<Spec>)
    requires ctx.Listed()
  {
    var dir := if right == Call then 1 else -1;
    exists short, long :: (FromMoney(ctx, 0, short) || FromMoney(ctx, dir, short)) && Further(ctx, dir, short, long)
                          && IsRatio(specs, short, long, right, ctx.expiration)
  }

  /** One, two or three steps to the side of `dir`. */
  ghost predicate Further(ctx: Context, dir: int, first: real, second: real)
    requires ctx.Listed()
  {
    Apart(ctx, dir, first, second) || Apart(ctx, 2 * dir, first, second) || Apart(ctx, 3 * dir, first, second)
  }

  predicate IsTimeSpread(specs: seq<Spec>, short: real, long: real, right: Right, near: Instant, far: Instant) {
    specs == [Spec(short, right, -1, near), Spec(long, right, 1, far)]
  }

  ghost predicate CalendarStrike(ctx: Context, dir: int, k: real)
    requires ctx.Listed()
  {
    FromMoney(ctx, 0, k) || FromMoney(ctx, dir, k) || FromMoney(ctx, 2 * dir, k)
  }

  /** Short the near and long the far expiration of one strike, at the money or up to two steps to its side. */
  ghost predicate OffersCalendar(ctx: Context, right: Right, specs: seq<Spec>)
    requires ctx.Listed()
  {
    var dir := if right == Call then 1 else -1;
    && HasFar(ctx)
    && exists k :: CalendarStrike(ctx, dir, k)
                   && IsTimeSpread(specs, k, k, right, ctx.expiration, ctx.farExpiration.value)
  }

  predicate IsDoubleCalendar(specs: seq<Spec>, put: real, call: real, near: Instant, far: Instant) {
    specs == [Spec(call, Call, -1, near), Spec(call, Call, 1, far), Spec(put, Put, -1, near), Spec(put, Put, 1, far)]
  }

  ghost predicate OffersDoubleCalendar(ctx: Context, specs: seq<Spec>)
    requires ctx.Listed()
  {
    && HasFar(ctx)
    && exists put, call, n: nat :: put < call && IsWing(n) && AroundMoney(ctx, n, put, call)
                                   && IsDoubleCalendar(specs, put, call, ctx.expiration, ctx.farExpiration.value)
  }

  /** Long the far expiration a step in the money, short the near one further out. */
  ghost predicate OffersDiagonal(ctx: Context, right: Right, specs: seq<Spec>)
    requires ctx.Listed()
  {
    var dir := if right == Call then 1 else -1;
    && HasFar(ctx)
    && exists long, short :: FromMoney(ctx, -dir, long) && Further(ctx, dir, long, short)
                             && IsTimeSpread(specs, short, long, right, ctx.expiration, ctx.farExpiration.value)
  }

  /** The legs a family offers on a chain, whether or not each is quotable. */
  ghost predicate Offers(family: Family, ctx: Context, specs: seq<Spec>)
    requires ctx.Listed()
  {
    match family
    case BullCallDebitSpread => OffersDebit(ctx, Call, specs)
    case BearPutDebitSpread => OffersDebit(ctx, Put, specs)
    case BullPutCreditSpread => OffersCredit(ctx, Put, specs)
    case BearCallCreditSpread => OffersCredit(ctx, Call, specs)
    case CallButterfly => OffersButterfly(ctx, Call, specs)
    case PutButterfly => OffersButterfly(ctx, Put, specs)
    case BrokenWingCallButterfly => OffersBrokenWing(ctx, Call, specs)
    case BrokenWingPutButterfly => OffersBrokenWing(ctx, Put, specs)
    case IronCondor | AsymmetricCondor | BrokenWingCondor => OffersCondor(family, ctx, specs)
    case IronButterfly => OffersIronButterfly(ctx, specs)
    case LongStraddle => IsLongVolatility(specs, ctx.Atm(), ctx.Atm(), ctx.expiration)
    case LongStrangle => OffersStrangle(ctx, specs)
    case CallBackspread => OffersBackspread(ctx, Call, specs)
    case PutBackspread => OffersBackspread(ctx, Put, specs)
    case BullishCalendar => OffersCalendar(ctx, Call, specs)
    case BearishCalendar => OffersCalendar(ctx, Put, specs)
    case DoubleCalendar => OffersDoubleCalendar(ctx, specs)
    case BullishDiagonal => OffersDiagonal(ctx, Call, specs)
    case BearishDiagonal => OffersDiagonal(ctx, Put, specs)
  }

  /** `s` is one of the offered structures, with every leg quoted. */
  ghost predicate Quoted(family: Family, ctx: Context, s: Strategy)
    requires ctx.Listed()
  {
    s.family == family && exists specs :: Offers(family, ctx, specs) && ctx.MakeLegs(specs) == Some(s.legs)
  }

  // ---------------------------------------------------------------- the generators yield what is offered

  lemma NarrowWidths(n: nat)
    ensures (n > 0 && n in NARROW_WIDTHS) <==> IsNarrow(n)
  {
  }

  lemma WingWidths(n: nat)
    ensures (n > 0 && n in WING_WIDTHS) <==> IsWing(n)
  {
  }

  lemma WidthIsSteps(ctx: Context, n: pos)
    ensures Width(n, ctx.StrikeStep()) == Steps(ctx, n)
  {
  }

  lemma DebitsOffer(ctx: Context, family: Family, specs: seq<Spec>)
    requires ctx.Listed() && (family.BullCallDebitSpread? || family.BearPutDebitSpread?)
    ensures Combines(Anchors(ctx), NARROW_WIDTHS, DebitSpread(family, ctx.StrikeStep(), ctx.expiration), specs) <==>
      OffersDebit(ctx, if family.BullCallDebitSpread? then Call else Put, specs)
  {
    hide Context.Listed, Context.StrikeStep, IsAnchor, Anchors, Width, Steps;
    var right := if family.BullCallDebitSpread? then Call else Put;
    var build := DebitSpread(family, ctx.StrikeStep(), ctx.expiration);
    forall k ensures k in Anchors(ctx) <==> IsAnchor(ctx, k) { AnchorsAre(ctx, k); }
    forall n: nat ensures (n > 0 && n in NARROW_WIDTHS) <==> IsNarrow(n) { NarrowWidths(n); }
    forall n: pos ensures Width(n, ctx.StrikeStep()) == Steps(ctx, n) { WidthIsSteps(ctx, n); }
    hide IsNarrow, DebitSpread;
    forall k, n: pos ensures build(k, n) == DebitOf(ctx, right, k, n) {
    }
    if Combines(Anchors(ctx), NARROW_WIDTHS, build, specs) {
      var k, n: pos :| k in Anchors(ctx) && n in NARROW_WIDTHS && build(k, n) == specs;
      assert specs == DebitOf(ctx, right, k, n);
    }
    if OffersDebit(ctx, right, specs) {
      var k, n: nat :| IsAnchor(ctx, k) && IsNarrow(n) && specs == DebitOf(ctx, right, k, n);
      var m: pos := n;
      assert build(k, m) == specs;
    }
  }

  lemma DebitsYield(ctx: Context, family: Family, s: Strategy)
    requires ctx.Listed() && (family.BullCallDebitSpread? || family.BearPutDebitSpread?)
    ensures s in DebitSpreads(ctx, family) <==> Quoted(family, ctx, s)
  {
    hide Context.MakeLegs, Context.Listed, Sound, Context.StrikeStep, Context.Atm, Context.Snap, ForEach, Combines,
      Anchors, OffersDebit;
    LoopQuotes(ctx, family, Anchors(ctx), NARROW_WIDTHS,
               DebitSpread(family, ctx.StrikeStep(), ctx.expiration), s);
    forall specs
      ensures Combines(Anchors(ctx), NARROW_WIDTHS,
                       DebitSpread(family, ctx.StrikeStep(), ctx.expiration), specs)
         <==> Offers(family, ctx, specs)
    {
      DebitsOffer(ctx, family, specs);
    }
  }

  function CreditRight(family: Family): Right { if family.BullPutCreditSpread? then Put else Call }

  lemma ShortProbabilities(p: real)
    ensures p in SHORT_PROBABILITIES <==> p == 0.10 || p == 0.16 || p == 0.25
  {
  }

  lemma ShortsAre(ctx: Context, right: Right, k: real)
    requires ctx.Listed()
    ensures k in ShortStrikes(ctx, SHORT_PROBABILITIES, right) <==> IsShort(ctx, right, k)
  {
    hide Context.Listed, FinishesAt, ShortStrikes;
    ShortStrikesAre(ctx, SHORT_PROBABILITIES, right, k);
    forall p ensures p in SHORT_PROBABILITIES <==> p == 0.10 || p == 0.16 || p == 0.25 { ShortProbabilities(p); }
  }

  lemma CreditsOffer(ctx: Context, family: Family, specs: seq<Spec>)
    requires ctx.Listed() && (family.BullPutCreditSpread? || family.BearCallCreditSpread?)
    ensures var right := CreditRight(family);
      Combines(ShortStrikes(ctx, SHORT_PROBABILITIES, right), NARROW_WIDTHS,
               CreditSpread(right, ctx.StrikeStep(), ctx.expiration), specs)
      <==> OffersCredit(ctx, right, specs)
  {
    hide Context.Listed, Context.StrikeStep, IsShort, ShortStrikes, Width, Steps;
    var right := CreditRight(family);
    var build := CreditSpread(right, ctx.StrikeStep(), ctx.expiration);
    var shorts := ShortStrikes(ctx, SHORT_PROBABILITIES, right);
    forall k ensures k in shorts <==> IsShort(ctx, right, k) { ShortsAre(ctx, right, k); }
    forall n: nat ensures (n > 0 && n in NARROW_WIDTHS) <==> IsNarrow(n) { NarrowWidths(n); }
    forall n: pos ensures Width(n, ctx.StrikeStep()) == Steps(ctx, n) { WidthIsSteps(ctx, n); }
    hide IsNarrow, CreditSpread;
    forall k, n: pos ensures build(k, n) == CreditOf(ctx, right, k, n) {
    }
    if Combines(shorts, NARROW_WIDTHS, build, specs) {
      var k, n: pos :| k in shorts && n in NARROW_WIDTHS && build(k, n) == specs;
      assert specs == CreditOf(ctx, right, k, n);
    }
    if OffersCredit(ctx, right, specs) {
      var k, n: nat :| IsShort(ctx, right, k) && IsNarrow(n) && specs == CreditOf(ctx, right, k, n);
      var m: pos := n;
      assert build(k, m) == specs;
    }
  }

  lemma CreditsYield(ctx: Context, family: Family, s: Strategy)
    requires ctx.Listed() && (family.BullPutCreditSpread? || family.BearCallCreditSpread?)
    ensures s in CreditSpreads(ctx, family) <==> Quoted(family, ctx, s)
  {
    hide Context.MakeLegs, Context.Listed, Sound, Context.StrikeStep, Context.Atm, Context.Snap, ForEach, Combines,
      ShortStrikes, OffersCredit;
    LoopQuotes(ctx, family, ShortStrikes(ctx, SHORT_PROBABILITIES, CreditRight(family)), NARROW_WIDTHS,
               CreditSpread(CreditRight(family), ctx.StrikeStep(), ctx.expiration), s);
    forall specs
      ensures Combines(ShortStrikes(ctx, SHORT_PROBABILITIES, CreditRight(family)), NARROW_WIDTHS,
                       CreditSpread(CreditRight(family), ctx.StrikeStep(), ctx.expiration), specs)
         <==> Offers(family, ctx, specs)
    {
      CreditsOffer(ctx, family, specs);
    }
  }

  lemma ButterfliesOffer(ctx: Context, family: Family, specs: seq<Spec>)
    requires ctx.Listed() && (family.CallButterfly? || family.PutButterfly?)
    ensures var right := if family.CallButterfly? then Call else Put;
      Combines(ButterflyCentres(ctx), WING_WIDTHS, EvenButterfly(right, ctx.StrikeStep(), ctx.expiration), specs)
      <==> OffersButterfly(ctx, right, specs)
  {
    hide Context.Listed, Context.StrikeStep, IsCentre, ButterflyCentres, Width, Steps;
    var right := if family.CallButterfly? then Call else Put;
    var build := EvenButterfly(right, ctx.StrikeStep(), ctx.expiration);
    forall k ensures k in ButterflyCentres(ctx) <==> IsCentre(ctx, k) { CentresAre(ctx, k); }
    forall n: nat ensures (n > 0 && n in WING_WIDTHS) <==> IsWing(n) { WingWidths(n); }
    forall n: pos ensures Width(n, ctx.StrikeStep()) == Steps(ctx, n) { WidthIsSteps(ctx, n); }
    hide IsWing, EvenButterfly;
    forall c, n: pos ensures build(c, n) == ButterflyOf(ctx, right, c, n) {
    }
    if Combines(ButterflyCentres(ctx), WING_WIDTHS, build, specs) {
      var c, n: pos :| c in ButterflyCentres(ctx) && n in WING_WIDTHS && build(c, n) == specs;
      assert specs == ButterflyOf(ctx, right, c, n);
    }
    if OffersButterfly(ctx, right, specs) {
      var c, n: nat :| IsCentre(ctx, c) && IsWing(n) && specs == ButterflyOf(ctx, right, c, n);
      var m: pos := n;
      assert build(c, m) == specs;
    }
  }

  lemma ButterfliesYield(ctx: Context, family: Family, s: Strategy)
    requires ctx.Listed() && (family.CallButterfly? || family.PutButterfly?)
    ensures s in Butterflies(ctx, family) <==> Quoted(family, ctx, s)
  {
    hide Context.MakeLegs, Context.Listed, Sound, Context.StrikeStep, Context.Atm, Context.Snap, ForEach, Combines,
      ButterflyCentres, OffersButterfly;
    LoopQuotes(ctx, family, ButterflyCentres(ctx), WING_WIDTHS,
               EvenButterfly(if family.CallButterfly? then Call else Put, ctx.StrikeStep(), ctx.expiration), s);
    forall specs
      ensures Combines(ButterflyCentres(ctx), WING_WIDTHS,
                       EvenButterfly(if family.CallButterfly? then Call else Put, ctx.StrikeStep(), ctx.expiration),
                       specs)
         <==> Offers(family, ctx, specs)
    {
      ButterfliesOffer(ctx, family, specs);
    }
  }

  const BROKEN_WINGS: seq<Wings> := [Wings(1, 2), Wings(1, 3), Wings(2, 3), Wings(2, 4), Wings(3, 4), Wings(3, 5)]

  lemma BrokenWingPairs(near: nat, far: nat)
    ensures (near > 0 && far > 0 && Wings(near, far) in BROKEN_WINGS) <==> IsBrokenWing(near, far)
  {
  }

  function BrokenWingOf(ctx: Context, right: Right, c: real, near: nat, far: nat): seq<Spec> {
    if right == Call then
      [Spec(c - Steps(ctx, near), Call, 1, ctx.expiration), Spec(c, Call, -2, ctx.expiration),
       Spec(c + Steps(ctx, far), Call, 1, ctx.expiration)]
    else
      [Spec(c + Steps(ctx, near), Put, 1, ctx.expiration), Spec(c, Put, -2, ctx.expiration),
       Spec(c - Steps(ctx, far), Put, 1, ctx.expiration)]
  }

  lemma BrokenWingsOffer(ctx: Context, family: Family, specs: seq<Spec>)
    requires ctx.Listed() && (family.BrokenWingCallButterfly? || family.BrokenWingPutButterfly?)
    ensures Combines(ButterflyCentres(ctx), BROKEN_WINGS, BrokenWing(family, ctx.StrikeStep(), ctx.expiration), specs)
      <==> OffersBrokenWing(ctx, if family.BrokenWingCallButterfly? then Call else Put, specs)
  {
    hide Context.Listed, Context.StrikeStep, IsCentre, ButterflyCentres, Width, Steps;
    var right := if family.BrokenWingCallButterfly? then Call else Put;
    var build := BrokenWing(family, ctx.StrikeStep(), ctx.expiration);
    forall k ensures k in ButterflyCentres(ctx) <==> IsCentre(ctx, k) { CentresAre(ctx, k); }
    forall m: nat, n: nat ensures (m > 0 && n > 0 && Wings(m, n) in BROKEN_WINGS) <==> IsBrokenWing(m, n) {
      BrokenWingPairs(m, n);
    }
    forall n: pos ensures Width(n, ctx.StrikeStep()) == Steps(ctx, n) { WidthIsSteps(ctx, n); }
    hide BrokenWing, IsBrokenWing;
    forall c, w: Wings ensures build(c, w) == BrokenWingOf(ctx, right, c, w.near, w.far) {
    }
    if Combines(ButterflyCentres(ctx), BROKEN_WINGS, build, specs) {
      var c, w: Wings :| c in ButterflyCentres(ctx) && w in BROKEN_WINGS && build(c, w) == specs;
      assert w == Wings(w.near, w.far) && IsBrokenWing(w.near, w.far);
      assert specs == BrokenWingOf(ctx, right, c, w.near, w.far);
    }
    if OffersBrokenWing(ctx, right, specs) {
      var c, near: nat, far: nat :| IsCentre(ctx, c) && IsBrokenWing(near, far)
        && specs == BrokenWingOf(ctx, right, c, near, far);
      var w := Wings(near, far);
      assert build(c, w) == specs;
    }
  }

  lemma BrokenWingsYield(ctx: Context, family: Family, s: Strategy)
    requires ctx.Listed() && (family.BrokenWingCallButterfly? || family.BrokenWingPutButterfly?)
    ensures s in BrokenWings(ctx, family) <==> Quoted(family, ctx, s)
  {
    hide Context.MakeLegs, Context.Listed, Sound, Context.StrikeStep, Context.Atm, Context.Snap, ForEach, Combines,
      ButterflyCentres, OffersBrokenWing;
    LoopQuotes(ctx, family, ButterflyCentres(ctx), BROKEN_WINGS,
               BrokenWing(family, ctx.StrikeStep(), ctx.expiration), s);
    forall specs
      ensures Combines(ButterflyCentres(ctx), BROKEN_WINGS,
                       BrokenWing(family, ctx.StrikeStep(), ctx.expiration), specs)
         <==> Offers(family, ctx, specs)
    {
      BrokenWingsOffer(ctx, family, specs);
    }
  }

  lemma CondorShortsAre(ctx: Context, family: Family, p: Shorts)
    requires ctx.Listed() && (family.IronCondor? || family.AsymmetricCondor? || family.BrokenWingCondor?)
    ensures p in ShortPairs(ctx, CondorProbabilities(family)) <==> AreIronShorts(family, ctx, p.put, p.call)
  {
    hide Context.Listed, FinishesAt, ShortPairs;
    var probabilities := CondorProbabilities(family);
    ShortPairsAre(ctx, probabilities, p);
    forall q ensures q in probabilities <==> IsCondorProbability(family, q) {
      CondorProbabilitiesAre(family, q);
    }
    hide CondorProbabilities;
    if AreIronShorts(family, ctx, p.put, p.call) {
      var q := if BothFinish(ctx, 0.10, 0.10, p.put, p.call) && family.IronCondor? then (0.10, 0.10)
               else if BothFinish(ctx, 0.16, 0.16, p.put, p.call) && !family.AsymmetricCondor? then (0.16, 0.16)
               else if BothFinish(ctx, 0.25, 0.25, p.put, p.call) && !family.AsymmetricCondor? then (0.25, 0.25)
               else if BothFinish(ctx, 0.10, 0.28, p.put, p.call) then (0.10, 0.28)
               else if BothFinish(ctx, 0.28, 0.10, p.put, p.call) then (0.28, 0.10)
               else (0.16, 0.34);
      assert q in probabilities && FinishesAt(ctx, q.0, Put, p.put) && FinishesAt(ctx, q.1, Call, p.call);
    }
  }

  predicate IsCondorProbability(family: Family, q: (real, real)) {
    match family
    case IronCondor => q == (0.10, 0.10) || q == (0.16, 0.16) || q == (0.25, 0.25)
    case AsymmetricCondor => q == (0.10, 0.28) || q == (0.28, 0.10) || q == (0.16, 0.34)
    case BrokenWingCondor => q == (0.16, 0.16) || q == (0.25, 0.25)
    case _ => false
  }

  lemma CondorProbabilitiesAre(family: Family, q: (real, real))
    requires family.IronCondor? || family.AsymmetricCondor? || family.BrokenWingCondor?
    ensures q in CondorProbabilities(family) <==> IsCondorProbability(family, q)
  {
  }

  lemma CondorWingsAre(family: Family, m: nat, n: nat)
    requires family.IronCondor? || family.AsymmetricCondor? || family.BrokenWingCondor?
    ensures (m > 0 && n > 0 && Wings(m, n) in CondorWings(family)) <==> IsIronWings(family, m, n)
  {
  }

  lemma CondorsOffer(ctx: Context, family: Family, specs: seq<Spec>)
    requires ctx.Listed() && (family.IronCondor? || family.AsymmetricCondor? || family.BrokenWingCondor?)
    ensures Combines(ShortPairs(ctx, CondorProbabilities(family)), CondorWings(family),
                     CondorOf(ctx.StrikeStep(), ctx.expiration), specs)
      <==> OffersCondor(family, ctx, specs)
  {
    hide Context.Listed, Context.StrikeStep, AreIronShorts, ShortPairs, CondorProbabilities, Width, Steps;
    var build := CondorOf(ctx.StrikeStep(), ctx.expiration);
    var shorts, wings := ShortPairs(ctx, CondorProbabilities(family)), CondorWings(family);
    forall p: Shorts ensures p in shorts <==> AreIronShorts(family, ctx, p.put, p.call) {
      CondorShortsAre(ctx, family, p);
    }
    forall m: nat, n: nat ensures (m > 0 && n > 0 && Wings(m, n) in wings) <==> IsIronWings(family, m, n) {
      CondorWingsAre(family, m, n);
    }
    forall n: pos ensures Width(n, ctx.StrikeStep()) == Steps(ctx, n) { WidthIsSteps(ctx, n); }
    hide IsIronWings, CondorOf, CondorWings;
    forall p: Shorts, w: Wings ensures build(p, w) == IronOf(ctx, p.put, p.call, w.near, w.far) {
    }
    if Combines(shorts, wings, build, specs) {
      var p: Shorts, w: Wings :| p in shorts && w in wings && build(p, w) == specs;
      assert w == Wings(w.near, w.far) && specs == IronOf(ctx, p.put, p.call, w.near, w.far);
    }
    if OffersCondor(family, ctx, specs) {
      var put, call, m: nat, n: nat :| put < call && AreIronShorts(family, ctx, put, call) && IsIronWings(family, m, n)
        && specs == IronOf(ctx, put, call, m, n);
      var p: Shorts, w := ShortRecord.Shorts(put, call), Wings(m, n);
      assert build(p, w) == specs;
    }
  }

  lemma CondorsYield(ctx: Context, family: Family, s: Strategy)
    requires ctx.Listed() && (family.IronCondor? || family.AsymmetricCondor? || family.BrokenWingCondor?)
    ensures s in Condors(ctx, family) <==> Quoted(family, ctx, s)
  {
    hide Context.MakeLegs, Context.Listed, Sound, Context.StrikeStep, Context.Atm, Context.Snap, ForEach, Combines,
      ShortPairs, CondorProbabilities, CondorWings, OffersCondor;
    LoopQuotes(ctx, family, ShortPairs(ctx, CondorProbabilities(family)), CondorWings(family),
               CondorOf(ctx.StrikeStep(), ctx.expiration), s);
    forall specs
      ensures Combines(ShortPairs(ctx, CondorProbabilities(family)), CondorWings(family),
                       CondorOf(ctx.StrikeStep(), ctx.expiration), specs)
         <==> Offers(family, ctx, specs)
    {
      CondorsOffer(ctx, family, specs);
    }
  }

  lemma IronButterfliesOffer(ctx: Context, family: Family, specs: seq<Spec>)
    requires ctx.Listed() && family.IronButterfly?
    ensures Combines(ButterflyCentres(ctx), WING_WIDTHS, IronFly(ctx.StrikeStep(), ctx.expiration), specs)
      <==> OffersIronButterfly(ctx, specs)
  {
    hide Context.Listed, Context.StrikeStep, IsCentre, ButterflyCentres, Width, Steps;
    var build := IronFly(ctx.StrikeStep(), ctx.expiration);
    forall k ensures k in ButterflyCentres(ctx) <==> IsCentre(ctx, k) { CentresAre(ctx, k); }
    forall n: nat ensures (n > 0 && n in WING_WIDTHS) <==> IsWing(n) { WingWidths(n); }
    forall n: pos ensures Width(n, ctx.StrikeStep()) == Steps(ctx, n) { WidthIsSteps(ctx, n); }
    hide IsWing, IronFly;
    forall c, n: pos ensures build(c, n) == IronOf(ctx, c, c, n, n) {
    }
    if Combines(ButterflyCentres(ctx), WING_WIDTHS, build, specs) {
      var c, n: pos :| c in ButterflyCentres(ctx) && n in WING_WIDTHS && build(c, n) == specs;
      assert specs == IronOf(ctx, c, c, n, n);
    }
    if OffersIronButterfly(ctx, specs) {
      var c, n: nat :| IsCentre(ctx, c) && IsWing(n) && specs == IronOf(ctx, c, c, n, n);
      var m: pos := n;
      assert build(c, m) == specs;
    }
  }

  lemma IronButterfliesYield(ctx: Context, family: Family, s: Strategy)
    requires ctx.Listed() && (family.IronButterfly?)
    ensures s in IronButterflies(ctx) <==> Quoted(family, ctx, s)
  {
    hide Context.MakeLegs, Context.Listed, Sound, Context.StrikeStep, Context.Atm, Context.Snap, ForEach, Combines,
      ButterflyCentres, OffersIronButterfly;
    LoopQuotes(ctx, family, ButterflyCentres(ctx), WING_WIDTHS,
               IronFly(ctx.StrikeStep(), ctx.expiration), s);
    forall specs
      ensures Combines(ButterflyCentres(ctx), WING_WIDTHS,
                       IronFly(ctx.StrikeStep(), ctx.expiration), specs)
         <==> Offers(family, ctx, specs)
    {
      IronButterfliesOffer(ctx, family, specs);
    }
  }

  lemma StraddlesOffer(ctx: Context, family: Family, specs: seq<Spec>)
    requires ctx.Listed() && family.LongStraddle?
    ensures Combines(SortedDistinct([ctx.Atm(), ctx.Snap(ctx.spot)]), [()], Straddle(ctx.expiration), specs)
      <==> IsLongVolatility(specs, ctx.Atm(), ctx.Atm(), ctx.expiration)
  {
    hide Context.Listed, Context.Snap;
    var centres, build := SortedDistinct([ctx.Atm(), ctx.Snap(ctx.spot)]), Straddle(ctx.expiration);
    assert ctx.Atm() == ctx.Snap(ctx.spot);
    assert forall k :: k in [ctx.Atm(), ctx.Snap(ctx.spot)] <==> k == ctx.Atm();
    assert forall k, u: () :: build(k, u) == [Spec(k, Call, 1, ctx.expiration), Spec(k, Put, 1, ctx.expiration)];
    hide Straddle, Context.Atm;
    assert () in [()] by { assert [()][0] == (); }
    if IsLongVolatility(specs, ctx.Atm(), ctx.Atm(), ctx.expiration) {
      assert ctx.Atm() in centres && build(ctx.Atm(), ()) == specs;
    }
  }

  lemma StraddlesYield(ctx: Context, family: Family, s: Strategy)
    requires ctx.Listed() && (family.LongStraddle?)
    ensures s in Straddles(ctx) <==> Quoted(family, ctx, s)
  {
    hide Context.MakeLegs, Context.Listed, Sound, Context.StrikeStep, Context.Atm, Context.Snap, ForEach, Combines,
      SortedDistinct, IsLongVolatility;
    LoopQuotes(ctx, family, SortedDistinct([ctx.Atm(), ctx.Snap(ctx.spot)]), [()],
               Straddle(ctx.expiration), s);
    forall specs
      ensures Combines(SortedDistinct([ctx.Atm(), ctx.Snap(ctx.spot)]), [()],
                       Straddle(ctx.expiration), specs)
         <==> Offers(family, ctx, specs)
    {
      StraddlesOffer(ctx, family, specs);
    }
  }

  lemma UnitIsListed()
    ensures () in [()]
  {
    assert [()][0] == ();
  }

  lemma StrangleStrikesOfWings(ctx: Context, p: Shorts)
    requires ctx.Listed()
    ensures p in StrangleStrikes(ctx, WING_WIDTHS) <==> exists n: nat :: IsWing(n) && AroundMoney(ctx, n, p.put, p.call)
  {
    hide Context.Listed, StrangleStrikes, AroundMoney;
    StrangleStrikesAre(ctx, WING_WIDTHS, p);
    forall n: nat ensures (n > 0 && n in WING_WIDTHS) <==> IsWing(n) { WingWidths(n); }
    if n: nat :| IsWing(n) && AroundMoney(ctx, n, p.put, p.call) {
      var m: pos := n;
      assert m in WING_WIDTHS && AroundMoney(ctx, m, p.put, p.call);
    }
  }

  lemma StranglesOffer(ctx: Context, family: Family, specs: seq<Spec>)
    requires ctx.Listed() && family.LongStrangle?
    ensures Combines(StrangleStrikes(ctx, WING_WIDTHS), [()], Strangle(ctx.expiration), specs)
      <==> OffersStrangle(ctx, specs)
  {
    hide Context.Listed, StrangleStrikes, AroundMoney, IsWing;
    var strikes, build := StrangleStrikes(ctx, WING_WIDTHS), Strangle(ctx.expiration);
    forall p: Shorts ensures p in strikes <==> exists n: nat :: IsWing(n) && AroundMoney(ctx, n, p.put, p.call) {
      StrangleStrikesOfWings(ctx, p);
    }
    UnitIsListed();
    forall p: Shorts, u: () ensures IsLongVolatility(build(p, u), p.put, p.call, ctx.expiration) {
    }
    hide Strangle;
    if OffersStrangle(ctx, specs) {
      var put, call, n: nat :| put < call && IsWing(n) && AroundMoney(ctx, n, put, call)
        && IsLongVolatility(specs, put, call, ctx.expiration);
      var p: Shorts := ShortRecord.Shorts(put, call);
      assert p in strikes && build(p, ()) == specs;
    }
  }

  lemma StranglesYield(ctx: Context, family: Family, s: Strategy)
    requires ctx.Listed() && (family.LongStrangle?)
    ensures s in Strangles(ctx) <==> Quoted(family, ctx, s)
  {
    hide Context.MakeLegs, Context.Listed, Sound, Context.StrikeStep, Context.Atm, Context.Snap, ForEach, Combines,
      StrangleStrikes, OffersStrangle;
    LoopQuotes(ctx, family, StrangleStrikes(ctx, WING_WIDTHS), [()],
               Strangle(ctx.expiration), s);
    forall specs
      ensures Combines(StrangleStrikes(ctx, WING_WIDTHS), [()],
                       Strangle(ctx.expiration), specs)
         <==> Offers(family, ctx, specs)
    {
      StranglesOffer(ctx, family, specs);
    }
  }

  function Side(family: Family): Right
    requires family.CallBackspread? || family.PutBackspread? || family.BullishDiagonal? || family.BearishDiagonal?
             || family.BullishCalendar? || family.BearishCalendar?
  {
    if family.CallBackspread? || family.BullishDiagonal? || family.BullishCalendar? then Call else Put
  }

  /** The direction further out of the money. */
  function Outward(right: Right): int { if right == Call then 1 else -1 }

  lemma PairsAre(ctx: Context, offsets: seq<int>, dir: int, p: Snapped)
    requires ctx.Listed()
    ensures p in SnappedPairs(ctx, offsets, [dir, 2 * dir, 3 * dir]) <==>
      (exists o :: o in offsets && FromMoney(ctx, o, p.first)) && Further(ctx, dir, p.first, p.second)
  {
    hide Context.Listed, SnappedPairs, FromMoney, Apart;
    var widths := [dir, 2 * dir, 3 * dir];
    SnappedPairsAre(ctx, offsets, widths, p);
    assert widths[0] == dir && widths[1] == 2 * dir && widths[2] == 3 * dir;
    assert forall w :: w in widths <==> w == dir || w == 2 * dir || w == 3 * dir;
  }

  lemma ApartDiffer(ctx: Context, dir: int, first: real, second: real)
    requires ctx.Listed() && Further(ctx, dir, first, second)
    ensures first != second
  {
    hide Context.Listed, Context.Snap, Steps;
  }

  lemma BackspreadsOffer(ctx: Context, family: Family, specs: seq<Spec>)
    requires ctx.Listed() && (family.CallBackspread? || family.PutBackspread?)
    ensures var dir := Outward(Side(family));
      Combines(BackspreadPairs(ctx, dir), [()], Ratio(Side(family), ctx.expiration), specs)
      <==> OffersBackspread(ctx, Side(family), specs)
  {
    hide Context.Listed, SnappedPairs, FromMoney, Further;
    var right, dir := Side(family), Outward(Side(family));
    var pairs, build := BackspreadPairs(ctx, dir), Ratio(right, ctx.expiration);
    forall p: Snapped
      ensures p in pairs <==>
        (FromMoney(ctx, 0, p.first) || FromMoney(ctx, dir, p.first)) && Further(ctx, dir, p.first, p.second)
    {
      PairsAre(ctx, [0, dir], dir, p);
      assert [0, dir][0] == 0 && [0, dir][1] == dir;
    }
    UnitIsListed();
    forall p: Snapped, u: () ensures IsRatio(build(p, u), p.first, p.second, right, ctx.expiration) {
    }
    hide Ratio;
    if OffersBackspread(ctx, right, specs) {
      var short, long :| (FromMoney(ctx, 0, short) || FromMoney(ctx, dir, short)) && Further(ctx, dir, short, long)
        && IsRatio(specs, short, long, right, ctx.expiration);
      ApartDiffer(ctx, dir, short, long);
      var p: Snapped := SnappedPair.Snapped(short, long);
      assert p in pairs && build(p, ()) == specs;
    }
  }

  lemma BackspreadsYield(ctx: Context, family: Family, s: Strategy)
    requires ctx.Listed() && (family.CallBackspread? || family.PutBackspread?)
    ensures s in Backspreads(ctx, family) <==> Quoted(family, ctx, s)
  {
    hide Context.MakeLegs, Context.Listed, Sound, Context.StrikeStep, Context.Atm, Context.Snap, ForEach, Combines,
      BackspreadPairs, OffersBackspread;
    LoopQuotes(ctx, family, BackspreadPairs(ctx, Outward(Side(family))), [()],
               Ratio(Side(family), ctx.expiration), s);
    forall specs
      ensures Combines(BackspreadPairs(ctx, Outward(Side(family))), [()],
                       Ratio(Side(family), ctx.expiration), specs)
         <==> Offers(family, ctx, specs)
    {
      BackspreadsOffer(ctx, family, specs);
    }
  }

  lemma MoneyItself(ctx: Context, k: real)
    requires ctx.Listed()
    ensures FromMoney(ctx, 0, k) <==> k == ctx.Snap(ctx.Atm())
  {
    hide Context.Listed, Context.Snap, Context.Atm, Context.StrikeStep, Offset;
    NoOffset(ctx.StrikeStep());
    assert ctx.Atm() + Steps(ctx, 0) == ctx.Atm();
  }

  lemma NoOffset(step: real)
    ensures Offset(0, step) == 0.0
  {
  }

  lemma StepsFromMoney(ctx: Context, n: int, k: real)
    requires ctx.Listed()
    ensures FromMoney(ctx, n, k) <==> k == Stepped(ctx, n)
  {
    hide Context.Listed, Context.Snap, Context.Atm, Context.StrikeStep, Offset;
    assert Steps(ctx, n) == Offset(n, ctx.StrikeStep());
  }

  function Stepped(ctx: Context, n: int): real
    requires ctx.Listed()
  {
    ctx.Snap(ctx.Atm() + Offset(n, ctx.StrikeStep()))
  }

  lemma CalendarStrikesAre(ctx: Context, dir: int, k: real)
    requires ctx.Listed()
    ensures k in CalendarStrikes(ctx, dir) <==> CalendarStrike(ctx, dir, k)
  {
    hide Context.Listed, Context.Snap, Context.Atm, Context.StrikeStep, Offset, FromMoney;
    assert CalendarStrikes(ctx, dir) == [ctx.Snap(ctx.Atm()), Stepped(ctx, dir), Stepped(ctx, 2 * dir)];
    MoneyItself(ctx, k);
    StepsFromMoney(ctx, dir, k);
    StepsFromMoney(ctx, 2 * dir, k);
    hide Stepped, CalendarStrikes;
    InThree(k, ctx.Snap(ctx.Atm()), Stepped(ctx, dir), Stepped(ctx, 2 * dir));
  }

  lemma InThree(k: real, a: real, b: real, c: real)
    ensures k in [a, b, c] <==> k == a || k == b || k == c
  {
  }

  lemma CalendarsOffer(ctx: Context, family: Family, specs: seq<Spec>)
    requires ctx.Listed() && (family.BullishCalendar? || family.BearishCalendar?) && HasFar(ctx)
    ensures Combines(CalendarStrikes(ctx, Outward(Side(family))), [()],
                     Calendar(Side(family), ctx.expiration, ctx.farExpiration.value), specs)
      <==> OffersCalendar(ctx, Side(family), specs)
  {
    hide Context.Listed, CalendarStrikes, CalendarStrike;
    var right, dir := Side(family), Outward(Side(family));
    var build := Calendar(right, ctx.expiration, ctx.farExpiration.value);
    forall k ensures k in CalendarStrikes(ctx, dir) <==> CalendarStrike(ctx, dir, k) {
      CalendarStrikesAre(ctx, dir, k);
    }
    UnitIsListed();
    forall k, u: () ensures IsTimeSpread(build(k, u), k, k, right, ctx.expiration, ctx.farExpiration.value) {
    }
    hide Calendar;
    if OffersCalendar(ctx, right, specs) {
      var k :| CalendarStrike(ctx, dir, k) && IsTimeSpread(specs, k, k, right, ctx.expiration, ctx.farExpiration.value);
      assert build(k, ()) == specs;
    }
  }

  lemma TimeSpreadsNeedTheFar(family: Family, ctx: Context, s: Strategy)
    requires ctx.Listed() && !HasFar(ctx) && family.IsCalendarized()
    ensures !Quoted(family, ctx, s)
  {
    hide Context.Listed, Context.MakeLegs, CalendarStrike, Further, FromMoney, AroundMoney;
  }

  lemma CalendarsYield(ctx: Context, family: Family, s: Strategy)
    requires ctx.Listed() && (family.BullishCalendar? || family.BearishCalendar?)
    ensures s in Calendars(ctx, family) <==> Quoted(family, ctx, s)
  {
    hide Context.MakeLegs, Context.Listed, Sound, Context.StrikeStep, Context.Atm, Context.Snap, ForEach, Combines,
      CalendarStrikes, OffersCalendar;
    if HasFar(ctx) {
      LoopQuotes(ctx, family, CalendarStrikes(ctx, Outward(Side(family))), [()],
                 Calendar(Side(family), ctx.expiration, ctx.farExpiration.value), s);
      forall specs
        ensures Combines(CalendarStrikes(ctx, Outward(Side(family))), [()],
                         Calendar(Side(family), ctx.expiration, ctx.farExpiration.value), specs)
           <==> Offers(family, ctx, specs)
      {
        CalendarsOffer(ctx, family, specs);
      }
    } else {
      TimeSpreadsNeedTheFar(family, ctx, s);
    }
  }

  lemma DoubleCalendarsOffer(ctx: Context, family: Family, specs: seq<Spec>)
    requires ctx.Listed() && family.DoubleCalendar? && HasFar(ctx)
    ensures Combines(StrangleStrikes(ctx, WING_WIDTHS), [()],
                     TwoCalendars(ctx.expiration, ctx.farExpiration.value), specs)
      <==> OffersDoubleCalendar(ctx, specs)
  {
    hide Context.Listed, StrangleStrikes, AroundMoney, IsWing;
    var near, far := ctx.expiration, ctx.farExpiration.value;
    var strikes, build := StrangleStrikes(ctx, WING_WIDTHS), TwoCalendars(near, far);
    forall p: Shorts ensures p in strikes <==> exists n: nat :: IsWing(n) && AroundMoney(ctx, n, p.put, p.call) {
      StrangleStrikesOfWings(ctx, p);
    }
    UnitIsListed();
    forall p: Shorts, u: () ensures IsDoubleCalendar(build(p, u), p.put, p.call, near, far) {
    }
    hide TwoCalendars;
    if OffersDoubleCalendar(ctx, specs) {
      var put, call, n: nat :| put < call && IsWing(n) && AroundMoney(ctx, n, put, call)
        && IsDoubleCalendar(specs, put, call, near, far);
      var p: Shorts := ShortRecord.Shorts(put, call);
      assert p in strikes && build(p, ()) == specs;
    }
  }

  lemma DoubleCalendarsYield(ctx: Context, family: Family, s: Strategy)
    requires ctx.Listed() && (family.DoubleCalendar?)
    ensures s in DoubleCalendars(ctx) <==> Quoted(family, ctx, s)
  {
    hide Context.MakeLegs, Context.Listed, Sound, Context.StrikeStep, Context.Atm, Context.Snap, ForEach, Combines,
      StrangleStrikes, OffersDoubleCalendar;
    if HasFar(ctx) {
      LoopQuotes(ctx, family, StrangleStrikes(ctx, WING_WIDTHS), [()],
                 TwoCalendars(ctx.expiration, ctx.farExpiration.value), s);
      forall specs
        ensures Combines(StrangleStrikes(ctx, WING_WIDTHS), [()],
                         TwoCalendars(ctx.expiration, ctx.farExpiration.value), specs)
           <==> Offers(family, ctx, specs)
      {
        DoubleCalendarsOffer(ctx, family, specs);
      }
    } else {
      TimeSpreadsNeedTheFar(family, ctx, s);
    }
  }

  lemma DiagonalsOffer(ctx: Context, family: Family, specs: seq<Spec>)
    requires ctx.Listed() && (family.BullishDiagonal? || family.BearishDiagonal?) && HasFar(ctx)
    ensures var dir := Outward(Side(family));
      Combines(DiagonalPairs(ctx, dir), [()],
               DiagonalOf(Side(family), ctx.expiration, ctx.farExpiration.value), specs)
      <==> OffersDiagonal(ctx, Side(family), specs)
  {
    hide Context.Listed, SnappedPairs, FromMoney, Further;
    var right, dir, near, far := Side(family), Outward(Side(family)), ctx.expiration, ctx.farExpiration.value;
    var pairs, build := DiagonalPairs(ctx, dir), DiagonalOf(right, near, far);
    forall p: Snapped ensures p in pairs <==> FromMoney(ctx, -dir, p.first) && Further(ctx, dir, p.first, p.second) {
      PairsAre(ctx, [-dir], dir, p);
      assert [-dir][0] == -dir;
    }
    UnitIsListed();
    forall p: Snapped, u: () ensures IsTimeSpread(build(p, u), p.second, p.first, right, near, far) {
    }
    hide DiagonalOf;
    if OffersDiagonal(ctx, right, specs) {
      var long, short :| FromMoney(ctx, -dir, long) && Further(ctx, dir, long, short)
        && IsTimeSpread(specs, short, long, right, near, far);
      ApartDiffer(ctx, dir, long, short);
      var p: Snapped := SnappedPair.Snapped(long, short);
      assert p in pairs && build(p, ()) == specs;
    }
  }

  lemma DiagonalsYield(ctx: Context, family: Family, s: Strategy)
    requires ctx.Listed() && (family.BullishDiagonal? || family.BearishDiagonal?)
    ensures s in Diagonals(ctx, family) <==> Quoted(family, ctx, s)
  {
    hide Context.MakeLegs, Context.Listed, Sound, Context.StrikeStep, Context.Atm, Context.Snap, ForEach, Combines,
      DiagonalPairs, OffersDiagonal;
    if HasFar(ctx) {
      LoopQuotes(ctx, family, DiagonalPairs(ctx, Outward(Side(family))), [()],
                 DiagonalOf(Side(family), ctx.expiration, ctx.farExpiration.value), s);
      forall specs
        ensures Combines(DiagonalPairs(ctx, Outward(Side(family))), [()],
                         DiagonalOf(Side(family), ctx.expiration, ctx.farExpiration.value), specs)
           <==> Offers(family, ctx, specs)
      {
        DiagonalsOffer(ctx, family, specs);
      }
    } else {
      TimeSpreadsNeedTheFar(family, ctx, s);
    }
  }

  /** Every generator yields exactly the structures its family offers with every leg quoted. */
  lemma GeneratedExactlyWhen(family: Family, ctx: Context, s: Strategy)
    requires ctx.Listed()
    ensures s in Generate(family, ctx) <==> Quoted(family, ctx, s)
  {
    hide Quoted, Context.Listed, DebitSpreads, CreditSpreads, Butterflies, BrokenWings, Condors, IronButterflies,
      Straddles, Strangles, Backspreads, Calendars, DoubleCalendars, Diagonals;
    match family
    case BullCallDebitSpread | BearPutDebitSpread => DebitsYield(ctx, family, s);
    case BullPutCreditSpread | BearCallCreditSpread => CreditsYield(ctx, family, s);
    case CallButterfly | PutButterfly => ButterfliesYield(ctx, family, s);
    case BrokenWingCallButterfly | BrokenWingPutButterfly => BrokenWingsYield(ctx, family, s);
    case IronCondor | AsymmetricCondor | BrokenWingCondor => CondorsYield(ctx, family, s);
    case IronButterfly => IronButterfliesYield(ctx, family, s);
    case LongStraddle => StraddlesYield(ctx, family, s);
    case LongStrangle => StranglesYield(ctx, family, s);
    case CallBackspread | PutBackspread => BackspreadsYield(ctx, family, s);
    case BullishCalendar | BearishCalendar => CalendarsYield(ctx, family, s);
    case DoubleCalendar => DoubleCalendarsYield(ctx, family, s);
    case BullishDiagonal | BearishDiagonal => DiagonalsYield(ctx, family, s);
  }
}
