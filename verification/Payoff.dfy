/** Payoff geometry: conservative and terminal payoffs, and the proof that the
    finitely many kinks decide the worst case over the whole half-line. */
module Payoff {
  import opened Options
  import opened Vectors

  datatype Bound = Finite(value: real) | Infinite

  /** Value of one leg per share; `conservative` biases an unexpired short leg against the holder. */
  function LegValueBound(leg: Leg, spot: real, at: Instant, conservative: bool): real {
    if leg.expiry <= at then leg.Intrinsic(spot)
    else if !conservative || leg.IsLong() then leg.Intrinsic(spot)
    else Cap(leg, spot)
  }

  /** The most an option can ever be worth: the underlying for a call, the strike for a put. */
  function Cap(leg: Leg, spot: real): real {
    match leg.right
    case Call => spot
    case Put => leg.strike
  }

  function Values(legs: seq<Leg>, spot: real, at: Instant, conservative: bool): (v: seq<real>)
    ensures |v| == |legs|
  {
    seq(|legs|, i requires 0 <= i < |legs| => LegValueBound(legs[i], spot, at, conservative))
  }

  function Gross(legs: seq<Leg>, spot: real, at: Instant, conservative: bool): real {
    Dot(Weights(legs), Values(legs, spot, at, conservative))
  }

  function PayoffAt(s: Strategy, spot: real, at: Instant, conservative: bool): real {
    Gross(s.legs, spot, at, conservative) - NetEntryCost(s.legs)
  }

  function TerminalPayoff(s: Strategy, spot: real): real {
    PayoffAt(s, spot, FarExpiry(s), false)
  }

  function UpsideSlope(s: Strategy): real {
    RightQuantity(s.legs, Call) as real * MULTIPLIER
  }

  function DownsideSlope(s: Strategy): real {
    -(RightQuantity(s.legs, Put) as real * MULTIPLIER)
  }

  function DefaultBound(s: Strategy): real {
    var ks := Strikes(s.legs);
    var top := ks[|ks| - 1];
    Max(2.0 * top, top + 100.0)
  }

  /** The default far bound lies beyond the last strike by 100 points or the strike itself, whichever is more. */
  lemma DefaultBoundIsFar(s: Strategy, top: real)
    requires top in Strikes(s.legs) && forall k | k in Strikes(s.legs) :: k <= top
    ensures DefaultBound(s) - top == if top >= 100.0 then top else 100.0
  {
    var ks := Strikes(s.legs);
    assert ks[|ks| - 1] in ks;
    assert forall j | 0 <= j < |ks| :: ks[j] <= ks[|ks| - 1];
  }

  /** Zero and the strikes: every point where a payoff can change slope. */
  function Knots(s: Strategy): (r: seq<real>)
    ensures Increasing(r) && |r| >= 2 && r[0] == 0.0
  {
    var ks := Strikes(s.legs);
    assert forall i | 0 <= i < |ks| :: ks[i] in ks && ks[i] > 0.0;
    [0.0] + ks
  }

  function EvaluationSpots(s: Strategy, farBound: Option<real>): (r: seq<real>)
    ensures |r| == |Knots(s)| + 1 && r[..|Knots(s)|] == Knots(s)
    ensures r[|r| - 1] == if farBound.Some? then farBound.value else DefaultBound(s)
  {
    Knots(s) + [if farBound.Some? then farBound.value else DefaultBound(s)]
  }

  // ---------------------------------------------------------------- the profile computation

  datatype Profile = Profile(maxLoss: Bound, maxProfit: Option<Bound>, maxProfitAtBound: Option<real>,
                             upsideSlope: real, downsideSlope: real, netEntryCost: real,
                             worstCaseSpot: real, worstCaseExpiry: Instant,
                             profitIsUnbounded: bool, profitIsModelDependent: bool)

  /** `v` is the least conservative payoff over the checkpoint grid, first met at (`i`, `j`). */
  ghost predicate FirstMinimum(s: Strategy, spots: seq<real>, i: nat, j: nat, v: real) {
    var es := Expiries(s.legs);
    && i < |es| && j < |spots|
    && v == PayoffAt(s, spots[j], es[i], true)
    && (forall i', j' | 0 <= i' < |es| && 0 <= j' < |spots| ::
          var w := PayoffAt(s, spots[j'], es[i'], true);
          w >= v && (i' < i || (i' == i && j' < j) ==> w > v))
  }

  ghost predicate GreatestTerminal(s: Strategy, spots: seq<real>, v: real) {
    && (exists j :: 0 <= j < |spots| && v == TerminalPayoff(s, spots[j]))
    && (forall j | 0 <= j < |spots| :: TerminalPayoff(s, spots[j]) <= v)
  }

  /** The profile's loss side holds the least conservative payoff `v`, first met at (`i`, `j`). */
  ghost predicate WorstAt(s: Strategy, farBound: Option<real>, p: Profile, i: nat, j: nat, v: real) {
    var spots := EvaluationSpots(s, farBound);
    && FirstMinimum(s, spots, i, j, v)
    && p.worstCaseSpot == spots[j] && p.worstCaseExpiry == Expiries(s.legs)[i]
    && p.maxLoss == if UpsideSlope(s) < 0.0 then Infinite else Finite(Max(0.0, -v))
  }

  ghost predicate LossSide(s: Strategy, farBound: Option<real>, p: Profile) {
    exists i: nat, j: nat, v: real :: WorstAt(s, farBound, p, i, j, v)
  }

  ghost predicate ProfitSide(s: Strategy, farBound: Option<real>, p: Profile) {
    && p.profitIsUnbounded == (UpsideSlope(s) > 0.0)
    && p.profitIsModelDependent == IsMultiExpiry(s)
    && (if IsMultiExpiry(s) then p.maxProfit == None && p.maxProfitAtBound == None
        else p.maxProfitAtBound.Some?
             && GreatestTerminal(s, EvaluationSpots(s, farBound), p.maxProfitAtBound.value)
             && p.maxProfit == Some(if p.profitIsUnbounded then Infinite else Finite(p.maxProfitAtBound.value)))
  }

  ghost predicate IsProfile(s: Strategy, farBound: Option<real>, p: Profile) {
    && p.upsideSlope == UpsideSlope(s) && p.downsideSlope == DownsideSlope(s)
    && p.netEntryCost == NetEntryCost(s.legs)
    && LossSide(s, farBound, p)
    && ProfitSide(s, farBound, p)
  }

  lemma WorstIsLossSide(s: Strategy, farBound: Option<real>, p: Profile, i: nat, j: nat, v: real)
    requires WorstAt(s, farBound, p, i, j, v)
    ensures LossSide(s, farBound, p)
  {
    hide WorstAt;
  }

  method ComputeProfile(s: Strategy, farBound: Option<real>) returns (p: Profile)
    ensures IsProfile(s, farBound, p)
  {
    hide PayoffAt, FirstMinimum, GreatestTerminal, UpsideSlope, DownsideSlope, NetEntryCost, IsMultiExpiry, LossSide,
      EvaluationSpots, Max, Expiries, Strikes;
    var spots := EvaluationSpots(s, farBound);
    var upside := UpsideSlope(s);
    var i, j, worst := WorstCheckpoint(s, spots);
    var best: Option<real> := None;
    if !IsMultiExpiry(s) {
      var b := BestTerminal(s, spots);
      best := Some(b);
    }
    p := Profile(
      if upside < 0.0 then Infinite else Finite(Max(0.0, -worst)),
      if best == None then None else Some(if upside > 0.0 then Infinite else Finite(best.value)),
      best, upside, DownsideSlope(s), NetEntryCost(s.legs), spots[j], Expiries(s.legs)[i],
      upside > 0.0, IsMultiExpiry(s));
    WorstIsLossSide(s, farBound, p, i, j, worst);
    assert ProfitSide(s, farBound, p);
  }

  /** The double scan over checkpoints and spots: a strictly smaller value replaces the worst so far. */
  method WorstCheckpoint(s: Strategy, spots: seq<real>) returns (wi: nat, wj: nat, v: real)
    requires spots != []
    ensures wi < |Expiries(s.legs)| && wj < |spots| && FirstMinimum(s, spots, wi, wj, v)
  {
    hide PayoffAt;
    var es := Expiries(s.legs);
    var worst := Infinite;
    wi, wj := 0, 0;
    for i := 0 to |es|
      invariant i == 0 <==> worst == Infinite
      invariant i > 0 ==> (wi < i && wj < |spots| && worst.value == PayoffAt(s, spots[wj], es[wi], true))
      invariant forall i', j' | 0 <= i' < i && 0 <= j' < |spots| ::
                  var w := PayoffAt(s, spots[j'], es[i'], true);
                  w >= worst.value && (i' < wi || (i' == wi && j' < wj) ==> w > worst.value)
    {
      for j := 0 to |spots|
        invariant i == 0 && j == 0 <==> worst == Infinite
        invariant worst != Infinite ==> (wi <= i && wj < |spots| && (wi == i ==> wj < j)
                                         && worst.value == PayoffAt(s, spots[wj], es[wi], true))
        invariant forall i', j' | 0 <= i' <= i && 0 <= j' < |spots| && (i' == i ==> j' < j) ::
                    var w := PayoffAt(s, spots[j'], es[i'], true);
                    w >= worst.value && (i' < wi || (i' == wi && j' < wj) ==> w > worst.value)
      {
        var value := PayoffAt(s, spots[j], es[i], true);
        if worst == Infinite || value < worst.value {
          worst, wi, wj := Finite(value), i, j;
        }
      }
    }
    v := worst.value;
  }

  method BestTerminal(s: Strategy, spots: seq<real>) returns (best: real)
    requires spots != []
    ensures GreatestTerminal(s, spots, best)
  {
    hide PayoffAt;
    best := TerminalPayoff(s, spots[0]);
    for j := 1 to |spots|
      invariant exists k :: 0 <= k < j && best == TerminalPayoff(s, spots[k])
      invariant forall k | 0 <= k < j :: TerminalPayoff(s, spots[k]) <= best
    {
      if TerminalPayoff(s, spots[j]) > best {
        best := TerminalPayoff(s, spots[j]);
      }
    }
  }

  // ---------------------------------------------------------------- payoffs are piecewise linear

  /** The line a leg's value follows from `lo` to the next strike. */
  function LegLine(leg: Leg, lo: real, at: Instant, conservative: bool): Line {
    if leg.expiry > at && conservative && !leg.IsLong() then
      match leg.right
      case Call => Line(0.0, 1.0)
      case Put => Line(leg.strike, 0.0)
    else
      match leg.right
      case Call => if leg.strike <= lo then Line(-leg.strike, 1.0) else Line(0.0, 0.0)
      case Put => if leg.strike <= lo then Line(0.0, 0.0) else Line(leg.strike, -1.0)
  }

  function LegLines(legs: seq<Leg>, lo: real, at: Instant, conservative: bool): (r: (seq<real>, seq<real>))
    ensures |r.0| == |r.1| == |legs|
  {
    (seq(|legs|, i requires 0 <= i < |legs| => LegLine(legs[i], lo, at, conservative).a),
     seq(|legs|, i requires 0 <= i < |legs| => LegLine(legs[i], lo, at, conservative).b))
  }

  function PayoffLine(s: Strategy, lo: real, at: Instant, conservative: bool): Line {
    var (a, b) := LegLines(s.legs, lo, at, conservative);
    Line(Dot(Weights(s.legs), a) - NetEntryCost(s.legs), Dot(Weights(s.legs), b))
  }

  ghost predicate NoStrikeInside(legs: seq<Leg>, lo: real, hi: real) {
    forall l | l in legs :: l.strike <= lo || hi <= l.strike
  }

  lemma LegOnSegment(leg: Leg, lo: real, x: real, hi: real, at: Instant, conservative: bool)
    requires lo <= x <= hi && (leg.strike <= lo || hi <= leg.strike)
    ensures LegValueBound(leg, x, at, conservative) == LegLine(leg, lo, at, conservative).At(x)
  {
  }

  lemma PayoffOnSegment(s: Strategy, lo: real, x: real, hi: real, at: Instant, conservative: bool)
    requires lo <= x <= hi && NoStrikeInside(s.legs, lo, hi)
    ensures PayoffAt(s, x, at, conservative) == PayoffLine(s, lo, at, conservative).At(x)
  {
    hide LegValueBound, LegLine;
    var (a, b) := LegLines(s.legs, lo, at, conservative);
    forall i | 0 <= i < |s.legs| ensures Values(s.legs, x, at, conservative)[i] == a[i] + b[i] * x {
      LegOnSegment(s.legs[i], lo, x, hi, at, conservative);
    }
    DotAffine(Weights(s.legs), a, b, x, Values(s.legs, x, at, conservative));
  }

  /** Beyond the last strike every call contributes its full signed quantity to the slope. */
  lemma TailSlope(s: Strategy, lo: real, at: Instant, conservative: bool)
    requires forall l | l in s.legs :: l.strike <= lo
    ensures PayoffLine(s, lo, at, conservative).b == UpsideSlope(s)
  {
    CallSlope(s.legs, LegLines(s.legs, lo, at, conservative).1);
  }

  lemma {:induction false} CallSlope(legs: seq<Leg>, b: seq<real>)
    requires |b| == |legs|
    requires forall i | 0 <= i < |legs| :: b[i] == if legs[i].right == Call then 1.0 else 0.0
    ensures Dot(Weights(legs), b) == RightQuantity(legs, Call) as real * MULTIPLIER
  {
    if legs != [] {
      CallSlope(legs[1..], b[1..]);
      assert Weights(legs)[1..] == Weights(legs[1..]);
    }
  }

  lemma {:induction false} PutSlope(legs: seq<Leg>, b: seq<real>)
    requires |b| == |legs|
    requires forall i | 0 <= i < |legs| :: b[i] == if legs[i].right == Put then -1.0 else 0.0
    ensures Dot(Weights(legs), b) == -(RightQuantity(legs, Put) as real * MULTIPLIER)
  {
    if legs != [] {
      PutSlope(legs[1..], b[1..]);
      assert Weights(legs)[1..] == Weights(legs[1..]);
    }
  }

  /** Up to the lowest strike the terminal payoff is a line with the reported downside slope. */
  lemma DownsideIsTheSlope(s: Strategy, x: real, y: real)
    requires 0.0 <= x <= y && forall l | l in s.legs :: y <= l.strike
    ensures TerminalPayoff(s, y) - TerminalPayoff(s, x) == Product(DownsideSlope(s), y - x)
  {
    var far := FarExpiry(s);
    var line := PayoffLine(s, 0.0, far, false);
    PayoffOnSegment(s, 0.0, x, y, far, false);
    PayoffOnSegment(s, 0.0, y, y, far, false);
    PutSlope(s.legs, LegLines(s.legs, 0.0, far, false).1);
    assert line.b == DownsideSlope(s);
    hide PayoffAt, PayoffLine, DownsideSlope, Product;
    LineShift(line, x, y - x);
  }

  lemma StrikesAreKnots(s: Strategy, l: Leg)
    requires l in s.legs
    ensures l.strike in Knots(s)
  {
    assert l.strike in Strikes(s.legs);
  }

  /** Where `x` sits among the knots: on a strike-free stretch or beyond the last strike. */
  lemma {:induction false} Bracket(s: Strategy, x: real) returns (lo: real, hi: Option<real>)
    requires x >= 0.0
    ensures lo in Knots(s) && lo <= x
    ensures hi.Some? ==> hi.value in Knots(s) && x < hi.value && NoStrikeInside(s.legs, lo, hi.value)
    ensures hi.None? ==> forall l | l in s.legs :: l.strike <= lo
  {
    hide Knots, Strikes;
    var ks := Knots(s);
    var i := 0;
    while i + 1 < |ks| && ks[i + 1] <= x
      invariant i < |ks| && ks[i] <= x
    {
      i := i + 1;
    }
    lo := ks[i];
    hi := if i + 1 < |ks| then Some(ks[i + 1]) else None;
    forall l | l in s.legs ensures l.strike <= lo || (hi.Some? && hi.value <= l.strike) {
      StrikesAreKnots(s, l);
      var j :| 0 <= j < |ks| && ks[j] == l.strike;
    }
  }

  /** The kinks decide the half-line: a lower bound on every knot is a lower bound everywhere. */
  lemma KnotsDecideMinimum(s: Strategy, at: Instant, conservative: bool, m: real, x: real)
    requires x >= 0.0 && UpsideSlope(s) >= 0.0
    requires forall k | k in Knots(s) :: PayoffAt(s, k, at, conservative) >= m
    ensures PayoffAt(s, x, at, conservative) >= m
  {
    hide PayoffAt, PayoffLine, Knots;
    var lo, hi := Bracket(s, x);
    var line := PayoffLine(s, lo, at, conservative);
    var end := if hi.Some? then hi.value else x;
    PayoffOnSegment(s, lo, lo, end, at, conservative);
    PayoffOnSegment(s, lo, x, end, at, conservative);
    LineMonotone(line, lo, x);
    if hi.Some? {
      PayoffOnSegment(s, lo, hi.value, hi.value, at, conservative);
      LineMonotone(line, x, hi.value);
    } else {
      TailSlope(s, lo, at, conservative);
    }
  }

  lemma KnotsDecideMaximum(s: Strategy, at: Instant, conservative: bool, m: real, x: real)
    requires x >= 0.0 && UpsideSlope(s) <= 0.0
    requires forall k | k in Knots(s) :: PayoffAt(s, k, at, conservative) <= m
    ensures PayoffAt(s, x, at, conservative) <= m
  {
    hide PayoffAt, PayoffLine, Knots;
    var lo, hi := Bracket(s, x);
    var line := PayoffLine(s, lo, at, conservative);
    var end := if hi.Some? then hi.value else x;
    PayoffOnSegment(s, lo, lo, end, at, conservative);
    PayoffOnSegment(s, lo, x, end, at, conservative);
    LineMonotone(line, lo, x);
    if hi.Some? {
      PayoffOnSegment(s, lo, hi.value, hi.value, at, conservative);
      LineMonotone(line, x, hi.value);
    } else {
      TailSlope(s, lo, at, conservative);
    }
  }

  lemma LastKnot(s: Strategy) returns (lo: real)
    ensures lo >= 0.0 && lo in Knots(s)
    ensures forall l | l in s.legs :: l.strike <= lo
  {
    var ks := Knots(s);
    var hi;
    lo, hi := Bracket(s, ks[|ks| - 1]);
    assert hi.None?;
  }

  lemma SlopeIsWhole(s: Strategy)
    ensures UpsideSlope(s) == 0.0 || UpsideSlope(s) <= -1.0 || UpsideSlope(s) >= 1.0
  {
  }

  /** A tail that slopes by a whole contract passes every level. */
  lemma TailPassesEveryLevel(s: Strategy, at: Instant, conservative: bool, m: real) returns (x: real)
    requires UpsideSlope(s) != 0.0
    ensures x >= 0.0
    ensures UpsideSlope(s) < 0.0 ==> PayoffAt(s, x, at, conservative) < m
    ensures UpsideSlope(s) > 0.0 ==> PayoffAt(s, x, at, conservative) > m
  {
    hide PayoffAt, PayoffLine, Knots, UpsideSlope;
    var lo := LastKnot(s);
    TailSlope(s, lo, at, conservative);
    SlopeIsWhole(s);
    var t := SteepLinePassesLevel(PayoffLine(s, lo, at, conservative), lo, m);
    x := lo + t;
    PayoffOnSegment(s, lo, x, x, at, conservative);
  }

  // ---------------------------------------------------------------- what the holder can lose

  /** An arbitrage-free mark at spot `spot` on instant `at`: an expired leg settles at intrinsic, a live one
      is worth no less, and no more than the underlying for a call or the strike for a put. */
  ghost predicate AdmissibleMark(leg: Leg, mark: real, spot: real, at: Instant) {
    if leg.expiry <= at then mark == leg.Intrinsic(spot)
    else leg.Intrinsic(spot) <= mark <= if leg.right == Call then spot else leg.strike
  }

  ghost predicate AdmissibleMarks(legs: seq<Leg>, marks: seq<real>, spot: real, at: Instant) {
    && |marks| == |legs|
    && (forall i | 0 <= i < |legs| :: AdmissibleMark(legs[i], marks[i], spot, at))
  }

  /** Dollars made or lost by closing one unit at the given marks. */
  function LiquidationPnl(s: Strategy, marks: seq<real>): real
    requires |marks| == |s.legs|
  {
    Dot(Weights(s.legs), marks) - NetEntryCost(s.legs)
  }

  lemma WeightedMarkIsBounded(leg: Leg, mark: real, spot: real, at: Instant)
    requires AdmissibleMark(leg, mark, spot, at)
    ensures leg.Weight() * mark >= leg.Weight() * LegValueBound(leg, spot, at, true)
  {
    var v := LegValueBound(leg, spot, at, true);
    if leg.quantity > 0 {
      LineMonotone(Line(0.0, leg.Weight()), v, mark);
    } else {
      LineMonotone(Line(0.0, leg.Weight()), mark, v);
    }
  }

  lemma ConservativeIsALowerBound(s: Strategy, marks: seq<real>, spot: real, at: Instant)
    requires AdmissibleMarks(s.legs, marks, spot, at)
    ensures LiquidationPnl(s, marks) >= PayoffAt(s, spot, at, true)
  {
    var w, v := Weights(s.legs), Values(s.legs, spot, at, true);
    forall i | 0 <= i < |s.legs| ensures w[i] * v[i] <= w[i] * marks[i] {
      WeightedMarkIsBounded(s.legs[i], marks[i], spot, at);
    }
    DotMonotone(w, v, marks);
  }

  lemma WorstMarksAreAdmissible(s: Strategy, spot: real, at: Instant)
    requires spot >= 0.0
    ensures AdmissibleMarks(s.legs, Values(s.legs, spot, at, true), spot, at)
    ensures LiquidationPnl(s, Values(s.legs, spot, at, true)) == PayoffAt(s, spot, at, true)
  {
  }

  /** Between expirations nothing changes: any instant from the first expiry on is valued
      like the latest expiration it has passed. */
  lemma LatestCheckpoint(s: Strategy, at: Instant) returns (e: Instant)
    requires at >= NearExpiry(s)
    ensures e in Expiries(s.legs) && e <= at
    ensures forall l | l in s.legs :: l.expiry <= at <==> l.expiry <= e
  {
    var es := Expiries(s.legs);
    var i := 0;
    while i + 1 < |es| && es[i + 1] <= at
      invariant i < |es| && es[i] <= at
    {
      i := i + 1;
    }
    e := es[i];
    forall l | l in s.legs && l.expiry <= at ensures l.expiry <= e {
      var j :| 0 <= j < |es| && es[j] == l.expiry;
    }
  }

  lemma SameExpiredLegsSamePayoff(s: Strategy, spot: real, at: Instant, e: Instant)
    requires forall l | l in s.legs :: l.expiry <= at <==> l.expiry <= e
    ensures PayoffAt(s, spot, at, true) == PayoffAt(s, spot, e, true)
  {
    assert Values(s.legs, spot, at, true) == Values(s.legs, spot, e, true);
  }

  lemma KnotsAreSpots(s: Strategy, farBound: Option<real>, k: real)
    requires k in Knots(s)
    ensures k in EvaluationSpots(s, farBound)
  {
    var spots, ks := EvaluationSpots(s, farBound), Knots(s);
    var j :| 0 <= j < |ks| && ks[j] == k;
    assert spots[j] == spots[..|ks|][j] == k;
  }

  lemma GridMinimumCoversKnots(s: Strategy, farBound: Option<real>, i: nat, j: nat, v: real, e: Instant, k: real)
    requires FirstMinimum(s, EvaluationSpots(s, farBound), i, j, v)
    requires e in Expiries(s.legs) && k in Knots(s)
    ensures PayoffAt(s, k, e, true) >= v
  {
    hide PayoffAt, EvaluationSpots;
    var spots, es := EvaluationSpots(s, farBound), Expiries(s.legs);
    KnotsAreSpots(s, farBound, k);
    var j' :| 0 <= j' < |spots| && spots[j'] == k;
    var i' :| 0 <= i' < |es| && es[i'] == e;
  }

  /** The recorded maximum loss is a bound: no instant from the first expiry on, no spot and no
      arbitrage-free valuation of the surviving legs loses more. */
  lemma MaxLossIsABound(s: Strategy, farBound: Option<real>, p: Profile, spot: real, at: Instant, marks: seq<real>)
    requires LossSide(s, farBound, p) && p.maxLoss.Finite?
    requires spot >= 0.0 && at >= NearExpiry(s) && AdmissibleMarks(s.legs, marks, spot, at)
    ensures LiquidationPnl(s, marks) >= -p.maxLoss.value
  {
    hide PayoffAt, FirstMinimum, LiquidationPnl, Knots, EvaluationSpots;
    var i: nat, j: nat, v: real :| WorstAt(s, farBound, p, i, j, v);
    assert p.maxLoss.value == Max(0.0, -v) && UpsideSlope(s) >= 0.0;
    var e := LatestCheckpoint(s, at);
    forall k | k in Knots(s) ensures PayoffAt(s, k, e, true) >= v {
      GridMinimumCoversKnots(s, farBound, i, j, v, e, k);
    }
    KnotsDecideMinimum(s, e, true, v, spot);
    SameExpiredLegsSamePayoff(s, spot, at, e);
    ConservativeIsALowerBound(s, marks, spot, at);
  }

  /** No far bound of the caller's, or one that is a price. */
  predicate IsSpot(farBound: Option<real>) { farBound.Some? ==> farBound.value >= 0.0 }

  lemma WorstCaseIsRecorded(s: Strategy, farBound: Option<real>, p: Profile)
    requires LossSide(s, farBound, p) && UpsideSlope(s) >= 0.0 && IsSpot(farBound)
    ensures p.worstCaseSpot >= 0.0 && p.worstCaseExpiry in Expiries(s.legs)
    ensures p.maxLoss == Finite(Max(0.0, -PayoffAt(s, p.worstCaseSpot, p.worstCaseExpiry, true)))
  {
    hide PayoffAt, EvaluationSpots, WorstAt, UpsideSlope, Max;
    var i: nat, j: nat, v: real :| WorstAt(s, farBound, p, i, j, v);
    WorstIsAttained(s, farBound, p, i, j, v);
    SpotsAreNonNegative(s, farBound, j);
  }

  lemma WorstIsAttained(s: Strategy, farBound: Option<real>, p: Profile, i: nat, j: nat, v: real)
    requires WorstAt(s, farBound, p, i, j, v) && UpsideSlope(s) >= 0.0
    ensures j < |EvaluationSpots(s, farBound)| && p.worstCaseSpot == EvaluationSpots(s, farBound)[j]
    ensures p.worstCaseExpiry in Expiries(s.legs)
    ensures p.maxLoss == Finite(Max(0.0, -PayoffAt(s, p.worstCaseSpot, p.worstCaseExpiry, true)))
  {
    hide PayoffAt, EvaluationSpots, UpsideSlope, FirstMinimum, Max, Expiries;
    MinimumIsAttained(s, EvaluationSpots(s, farBound), i, j, v);
  }

  lemma MinimumIsAttained(s: Strategy, spots: seq<real>, i: nat, j: nat, v: real)
    requires FirstMinimum(s, spots, i, j, v)
    ensures i < |Expiries(s.legs)| && j < |spots| && v == PayoffAt(s, spots[j], Expiries(s.legs)[i], true)
    ensures Expiries(s.legs)[i] in Expiries(s.legs)
  {
    hide PayoffAt, Expiries;
  }

  /** ... and it is exact: a positive maximum loss is reached at the recorded spot and expiry. */
  lemma MaxLossIsReached(s: Strategy, farBound: Option<real>, p: Profile) returns (marks: seq<real>)
    requires LossSide(s, farBound, p) && IsSpot(farBound) && p.maxLoss.Finite? && p.maxLoss.value > 0.0
    ensures p.worstCaseSpot >= 0.0 && p.worstCaseExpiry in Expiries(s.legs)
    ensures AdmissibleMarks(s.legs, marks, p.worstCaseSpot, p.worstCaseExpiry)
    ensures LiquidationPnl(s, marks) == -p.maxLoss.value
  {
    hide PayoffAt, LiquidationPnl, AdmissibleMarks;
    SlopeOfFiniteLoss(s, farBound, p);
    hide LossSide, UpsideSlope;
    WorstCaseIsRecorded(s, farBound, p);
    marks := Values(s.legs, p.worstCaseSpot, p.worstCaseExpiry, true);
    WorstMarksAreAdmissible(s, p.worstCaseSpot, p.worstCaseExpiry);
  }

  lemma SlopeOfFiniteLoss(s: Strategy, farBound: Option<real>, p: Profile)
    requires LossSide(s, farBound, p)
    ensures p.maxLoss.Finite? <==> UpsideSlope(s) >= 0.0
  {
    hide FirstMinimum, UpsideSlope, EvaluationSpots;
  }

  ghost predicate CanFinishBelow(s: Strategy, m: real) {
    exists spot: real, at: Instant, marks: seq<real> ::
      && spot >= 0.0 && at >= NearExpiry(s) && AdmissibleMarks(s.legs, marks, spot, at)
      && LiquidationPnl(s, marks) < m
  }

  /** A position can lose more than any amount exactly when the profile reports an infinite loss. */
  lemma LossIsUnboundedExactlyWhenReported(s: Strategy, farBound: Option<real>, p: Profile)
    requires LossSide(s, farBound, p)
    ensures p.maxLoss == Infinite <==> forall m: real :: CanFinishBelow(s, m)
  {
    if p.maxLoss == Infinite {
      forall m: real ensures CanFinishBelow(s, m) {
        var at := NearExpiry(s);
        var spot := TailPassesEveryLevel(s, at, true, m);
        WorstMarksAreAdmissible(s, spot, at);
        var marks := Values(s.legs, spot, at, true);
        assert LiquidationPnl(s, marks) < m;
      }
    } else if CanFinishBelow(s, -p.maxLoss.value) {
      var spot: real, at: Instant, marks: seq<real> :|
        && spot >= 0.0 && at >= NearExpiry(s) && AdmissibleMarks(s.legs, marks, spot, at)
        && LiquidationPnl(s, marks) < -p.maxLoss.value;
      MaxLossIsABound(s, farBound, p, spot, at, marks);
    }
  }

  ghost predicate TerminalReaches(s: Strategy, m: real) {
    exists x :: x >= 0.0 && TerminalPayoff(s, x) >= m
  }

  lemma GreatestTerminalCoversHalfLine(s: Strategy, farBound: Option<real>, best: real, x: real)
    requires GreatestTerminal(s, EvaluationSpots(s, farBound), best) && UpsideSlope(s) <= 0.0 && x >= 0.0
    ensures TerminalPayoff(s, x) <= best
  {
    var spots, ks := EvaluationSpots(s, farBound), Knots(s);
    forall k | k in ks ensures TerminalPayoff(s, k) <= best {
      KnotsAreSpots(s, farBound, k);
    }
    KnotsDecideMaximum(s, FarExpiry(s), false, best, x);
  }

  lemma GreatestTerminalIsReached(s: Strategy, farBound: Option<real>, best: real)
    requires GreatestTerminal(s, EvaluationSpots(s, farBound), best) && IsSpot(farBound)
    ensures TerminalReaches(s, best)
  {
    hide TerminalPayoff, EvaluationSpots;
    var spots := EvaluationSpots(s, farBound);
    var j :| 0 <= j < |spots| && best == TerminalPayoff(s, spots[j]);
    SpotsAreNonNegative(s, farBound, j);
  }

  lemma RisingTailReachesEveryLevel(s: Strategy, m: real)
    requires UpsideSlope(s) > 0.0
    ensures TerminalReaches(s, m)
  {
    var x := TailPassesEveryLevel(s, FarExpiry(s), false, m);
    assert TerminalPayoff(s, x) >= m;
  }

  lemma FlatOrFallingTailReaches(s: Strategy, farBound: Option<real>, best: real, m: real)
    requires UpsideSlope(s) <= 0.0 && GreatestTerminal(s, EvaluationSpots(s, farBound), best) && IsSpot(farBound)
    ensures TerminalReaches(s, m) <==> m <= best
  {
    GreatestTerminalIsReached(s, farBound, best);
    if TerminalReaches(s, m) {
      var x :| x >= 0.0 && TerminalPayoff(s, x) >= m;
      GreatestTerminalCoversHalfLine(s, farBound, best, x);
    }
  }

  /** For a single-expiry structure the recorded maximum profit is exact too: a level can be
      reached at some spot exactly when it does not exceed the recorded maximum. */
  lemma MaxProfitIsExact(s: Strategy, farBound: Option<real>, p: Profile, m: real)
    requires ProfitSide(s, farBound, p) && IsSpot(farBound) && !IsMultiExpiry(s)
    ensures TerminalReaches(s, m) <==> p.maxProfit.value.Infinite? || m <= p.maxProfit.value.value
  {
    if p.profitIsUnbounded {
      RisingTailReachesEveryLevel(s, m);
    } else {
      FlatOrFallingTailReaches(s, farBound, p.maxProfitAtBound.value, m);
    }
  }

  lemma SpotsAreNonNegative(s: Strategy, farBound: Option<real>, j: nat)
    requires j < |EvaluationSpots(s, farBound)| && IsSpot(farBound)
    ensures EvaluationSpots(s, farBound)[j] >= 0.0
  {
    var ks, spots := Knots(s), EvaluationSpots(s, farBound);
    assert ks[|ks| - 1] == Strikes(s.legs)[|ks| - 2];
    if j < |ks| {
      assert spots[j] == spots[..|ks|][j] == ks[j];
    }
  }
}
