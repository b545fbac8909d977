/** Terminal breakevens: the scan returns exactly the points of (0, far bound) where the
    sign of the terminal payoff changes, and misses one beyond the bound exactly when the
    tail still has to cross zero. */
module Breakevens {
  import opened Options
  import opened Vectors
  import opened Payoff
  import opened SignChanges

  function TerminalOf(s: Strategy): real -> real {
    (x: real) => TerminalPayoff(s, x)
  }

  /** The caller's far bound, or the default one. */
  function FarOf(s: Strategy, farBound: Option<real>): real {
    if farBound.Some? then farBound.value else DefaultBound(s)
  }

  function Spots(s: Strategy, farBound: Option<real>): seq<real> { EvaluationSpots(s, farBound) }

  function LastStrike(s: Strategy): real { Strikes(s.legs)[|Strikes(s.legs)| - 1] }

  /** The far bound lies beyond every strike, as the default one always does. */
  predicate IsBeyond(s: Strategy, farBound: Option<real>) { FarOf(s, farBound) > LastStrike(s) }

  lemma DefaultIsBeyond(s: Strategy)
    ensures IsBeyond(s, None)
  {
    var ks := Strikes(s.legs);
    assert ks[|ks| - 1] in ks;
  }

  lemma LastKnotIsTop(s: Strategy)
    ensures Knots(s)[|Knots(s)| - 1] == LastStrike(s) > 0.0
  {
    var ks := Strikes(s.legs);
    assert ks[|ks| - 1] in ks;
  }

  lemma SpotsOrdered(s: Strategy, farBound: Option<real>)
    requires IsBeyond(s, farBound)
    ensures var spots := Spots(s, farBound);
      && Increasing(spots) && |spots| >= 3 && spots[0] == 0.0 && spots[|spots| - 1] == FarOf(s, farBound)
      && forall l | l in s.legs :: l.strike in spots && l.strike <= LastStrike(s)
  {
    var ks, spots := Knots(s), Spots(s, farBound);
    LastKnotIsTop(s);
    hide Knots, DefaultBound, EvaluationSpots, LastStrike;
    assert forall i | 0 <= i < |ks| :: spots[i] == ks[i];
    forall l | l in s.legs ensures l.strike in spots && l.strike <= LastStrike(s) {
      StrikesAreKnots(s, l);
      KnotsAreSpots(s, farBound, l.strike);
      var j :| 0 <= j < |ks| && ks[j] == l.strike;
    }
  }

  lemma StraightBetween(s: Strategy, lo: real, hi: real)
    requires 0.0 <= lo < hi && NoStrikeInside(s.legs, lo, hi)
    ensures SegmentShape(TerminalOf(s), lo, hi, CrossingOf(TerminalOf(s), lo, hi))
  {
    hide PayoffAt, PayoffLine;
    var f, l := TerminalOf(s), PayoffLine(s, lo, FarExpiry(s), false);
    forall x | lo <= x <= hi ensures f(x) == l.At(x) {
      PayoffOnSegment(s, lo, x, hi, FarExpiry(s), false);
    }
    StraightSegment(f, l, lo, hi);
  }

  lemma NoStrikeBetweenSpots(s: Strategy, farBound: Option<real>, i: nat)
    requires IsBeyond(s, farBound) && i + 1 < |Spots(s, farBound)|
    ensures var spots := Spots(s, farBound);
      0.0 <= spots[i] < spots[i + 1] && NoStrikeInside(s.legs, spots[i], spots[i + 1])
  {
    var spots := Spots(s, farBound);
    SpotsOrdered(s, farBound);
    hide Spots, IsBeyond;
    forall l | l in s.legs ensures l.strike <= spots[i] || spots[i + 1] <= l.strike {
      var j :| 0 <= j < |spots| && spots[j] == l.strike;
    }
  }

  /** The terminal payoff is straight between consecutive evaluation spots. */
  lemma PayoffIsShaped(s: Strategy, farBound: Option<real>)
    requires IsBeyond(s, farBound)
    ensures Shaped(TerminalOf(s), Spots(s, farBound), Crossings(TerminalOf(s), Spots(s, farBound)))
  {
    hide PayoffAt, TerminalPayoff, TerminalOf, Spots, SegmentShape, CrossingOf, NoStrikeInside, IsBeyond;
    var spots, f := Spots(s, farBound), TerminalOf(s);
    forall i | 0 <= i < |spots| - 1
      ensures SegmentShape(f, spots[i], spots[i + 1], CrossingOf(f, spots[i], spots[i + 1]))
    {
      NoStrikeBetweenSpots(s, farBound, i);
      StraightBetween(s, spots[i], spots[i + 1]);
    }
  }

  /** Every point of (0, far bound) where the payoff changes sign, in increasing order, and no other. */
  ghost predicate AreBreakevens(s: Strategy, farBound: Option<real>, bes: seq<real>) {
    Increasing(bes) && ListsBoundaries(TerminalOf(s), bes, 0.0, FarOf(s, farBound))
  }

  method ComputeBreakevens(s: Strategy, farBound: Option<real>) returns (deduped: seq<real>)
    requires IsBeyond(s, farBound)
    ensures AreBreakevens(s, farBound, deduped)
  {
    SpotsOrdered(s, farBound);
    PayoffIsShaped(s, farBound);
    deduped := ScanSignChanges(TerminalOf(s), Spots(s, farBound));
  }

  /** A breakeven is a zero of the terminal payoff. */
  lemma BreakevenIsZero(s: Strategy, farBound: Option<real>, bes: seq<real>, r: real)
    requires IsBeyond(s, farBound) && AreBreakevens(s, farBound, bes) && r in bes
    ensures TerminalPayoff(s, r) == 0.0
  {
    SpotsOrdered(s, farBound);
    PayoffIsShaped(s, farBound);
    BoundaryIsZero(TerminalOf(s), Spots(s, farBound), Crossings(TerminalOf(s), Spots(s, farBound)), r);
    assert TerminalOf(s)(r) == 0.0;
  }

  /** Between consecutive entries of zero, the breakevens and the far bound the payoff never
      takes both strict signs. */
  lemma OneSignBetweenBreakevens(s: Strategy, farBound: Option<real>, bes: seq<real>, x: real, y: real)
    requires IsBeyond(s, farBound) && AreBreakevens(s, farBound, bes) && 0.0 <= x < y <= FarOf(s, farBound)
    requires forall r | r in bes :: r <= x || y <= r
    ensures !(TerminalPayoff(s, x) > 0.0 && TerminalPayoff(s, y) < 0.0)
    ensures !(TerminalPayoff(s, x) < 0.0 && TerminalPayoff(s, y) > 0.0)
  {
    var spots, f := Spots(s, farBound), TerminalOf(s);
    SpotsOrdered(s, farBound);
    PayoffIsShaped(s, farBound);
    NoOppositeSignsBetweenBoundaries(f, spots, Crossings(f, spots), x, y);
    assert !Opposite(f(x), f(y));
  }

  // ---------------------------------------------------------------- beyond the far bound

  /** Halfway from the last strike to the far bound. */
  function TailStart(s: Strategy, farBound: Option<real>): real { (LastStrike(s) + FarOf(s, farBound)) / 2.0 }

  function TailLine(s: Strategy, farBound: Option<real>): Line {
    PayoffLine(s, TailStart(s, farBound), FarExpiry(s), false)
  }

  lemma TailIsPastStrikes(s: Strategy, farBound: Option<real>)
    requires IsBeyond(s, farBound)
    ensures 0.0 < TailStart(s, farBound) < FarOf(s, farBound)
    ensures forall l | l in s.legs :: l.strike < TailStart(s, farBound)
  {
    SpotsOrdered(s, farBound);
    LastKnotIsTop(s);
    hide LastStrike, FarOf, Spots;
  }

  lemma PayoffOnTail(s: Strategy, farBound: Option<real>, x: real)
    requires IsBeyond(s, farBound) && x >= TailStart(s, farBound)
    ensures TerminalPayoff(s, x) == TailLine(s, farBound).At(x)
  {
    hide PayoffAt, PayoffLine, TailStart;
    TailIsPastStrikes(s, farBound);
    PayoffOnSegment(s, TailStart(s, farBound), x, x, FarExpiry(s), false);
  }

  /** Past the last strike the payoff is a line with the upside slope. */
  lemma TailIsStraight(s: Strategy, farBound: Option<real>)
    requires IsBeyond(s, farBound)
    ensures StraightTail(TerminalOf(s), TailStart(s, farBound), TailLine(s, farBound))
    ensures TailLine(s, farBound).b == UpsideSlope(s)
  {
    hide PayoffAt, PayoffLine, TerminalPayoff, TailStart, IsBeyond;
    forall x | x >= TailStart(s, farBound) ensures TerminalOf(s)(x) == TailLine(s, farBound).At(x) {
      PayoffOnTail(s, farBound, x);
    }
    TailIsPastStrikes(s, farBound);
    TailSlope(s, TailStart(s, farBound), FarExpiry(s), false);
  }

  lemma BreakevenBeyondBound(s: Strategy, farBound: Option<real>, r: real)
    requires IsBeyond(s, farBound) && r >= FarOf(s, farBound)
    ensures SignBoundary(TerminalOf(s), r) <==> TerminalPayoff(s, r) == 0.0 && UpsideSlope(s) != 0.0
  {
    TailIsStraight(s, farBound);
    TailIsPastStrikes(s, farBound);
    BoundaryOnTail(TerminalOf(s), TailStart(s, farBound), TailLine(s, farBound), r);
    assert TerminalOf(s)(r) == TerminalPayoff(s, r);
  }

  /** The scan stops at the far bound. It misses a breakeven exactly when the payoff there
      does not yet have the sign the tail is heading for. */
  lemma ScanMissesExactlyWhen(s: Strategy, farBound: Option<real>)
    requires IsBeyond(s, farBound)
    ensures (exists r :: r >= FarOf(s, farBound) && SignBoundary(TerminalOf(s), r)) <==>
            UpsideSlope(s) != 0.0 && Sign(TerminalOf(s)(FarOf(s, farBound))) != Sign(UpsideSlope(s))
  {
    TailIsStraight(s, farBound);
    TailIsPastStrikes(s, farBound);
    TailBoundaryExists(TerminalOf(s), TailStart(s, farBound), TailLine(s, farBound), FarOf(s, farBound));
  }

  /** An instance: a straddle at 100 bought for 60 and 50. The far bound is 200, and the payoff, below zero
      at it, crosses zero at 210. */
  ghost predicate OverpricedStraddle(s: Strategy) {
    && |s.legs| == 2 && s.legs[0].right == Call && s.legs[1].right == Put
    && s.legs[0].quantity == 1 && s.legs[1].quantity == 1
    && s.legs[0].entryPrice == 60.0 && s.legs[1].entryPrice == 50.0
    && forall l | l in s.legs :: l.strike == 100.0 && l.expiry == 1.0
  }

  lemma StraddleFigures(s: Strategy)
    requires OverpricedStraddle(s)
    ensures DefaultBound(s) == 200.0 && UpsideSlope(s) == 100.0 && TerminalPayoff(s, 210.0) == 0.0
  {
    var call, put := s.legs[0], s.legs[1];
    assert call in s.legs && put in s.legs && s.legs == [call, put];
    Singleton(Strikes(s.legs), 100.0);
    Singleton(Expiries(s.legs), 1.0);
    StraddleDollars(s, call, put);
  }

  lemma StraddleDollars(s: Strategy, call: Leg, put: Leg)
    requires OverpricedStraddle(s) && s.legs == [call, put] && FarExpiry(s) == 1.0
    ensures UpsideSlope(s) == 100.0 && TerminalPayoff(s, 210.0) == 0.0
  {
    assert call in s.legs && put in s.legs;
    hide Strikes, Expiries;
    OneCall(call, put);
    assert Weights(s.legs) == [100.0, 100.0] && EntryPrices(s.legs) == [60.0, 50.0];
    assert Values(s.legs, 210.0, 1.0, false) == [110.0, 0.0];
    DotOfTwo(100.0, 100.0, 60.0, 50.0);
    DotOfTwo(100.0, 100.0, 110.0, 0.0);
  }

  lemma OneCall(call: Leg, put: Leg)
    requires call.right == Call && put.right == Put
    ensures RightQuantity([call, put], Call) == call.quantity
  {
    var legs := [call, put];
    var rest := legs[1..];
    assert rest[0] == put && rest[1..] == [];
    assert RightQuantity(rest, Call) == RightQuantity(rest[1..], Call);
  }

  lemma DotOfTwo(a: real, b: real, x: real, y: real)
    ensures Dot([a, b], [x, y]) == a * x + b * y
  {
    var u, v := [a, b], [x, y];
    var u1, v1 := u[1..], v[1..];
    assert u1[0] == b && v1[0] == y && u1[1..] == [] && v1[1..] == [];
    assert Dot(u1, v1) == b * y + Dot(u1[1..], v1[1..]);
    assert Dot(u, v) == a * x + Dot(u1, v1);
  }

  lemma MissedBreakeven(s: Strategy, bes: seq<real>)
    requires OverpricedStraddle(s) && AreBreakevens(s, None, bes)
    ensures SignBoundary(TerminalOf(s), 210.0) && 210.0 !in bes
  {
    StraddleFigures(s);
    DefaultIsBeyond(s);
    hide OverpricedStraddle;
    BreakevenBeyondBound(s, None, 210.0);
  }

  lemma Singleton(r: seq<real>, x: real)
    requires Increasing(r) && x in r && forall y | y in r :: y == x
    ensures r == [x]
  {
    assert r[0] in r && r[|r| - 1] in r;
  }
}
