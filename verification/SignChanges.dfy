/** Where a function made of straight segments changes sign, and a left-to-right scan that
    finds every such point. The function is arbitrary; only the shape of its segments matters. */
module SignChanges {
  import opened Vectors
  import opened Options

  function Sign(v: real): int {
    if v > 0.0 then 1 else if v < 0.0 then -1 else 0
  }

  predicate Opposite(u: real, v: real) {
    u < 0.0 < v || v < 0.0 < u
  }

  /** Strictly between `a` and `b` the function has sign `g`. */
  ghost predicate ConstantSign(f: real -> real, a: real, b: real, g: int) {
    forall x | a < x < b :: Sign(f(x)) == g
  }

  ghost predicate SignAbove(f: real -> real, r: real, g: int) {
    exists b :: r < b && ConstantSign(f, r, b, g)
  }

  ghost predicate SignBelow(f: real -> real, r: real, g: int) {
    exists a :: a < r && ConstantSign(f, a, r, g)
  }

  /** A boundary of the region where `f` is positive, negative or flat zero. */
  ghost predicate SignBoundary(f: real -> real, r: real) {
    exists below, above :: below != above && SignBelow(f, r, below) && SignAbove(f, r, above)
  }

  lemma OneSidedSignsAreUnique(f: real -> real, r: real, g: int, h: int)
    ensures SignAbove(f, r, g) && SignAbove(f, r, h) ==> g == h
    ensures SignBelow(f, r, g) && SignBelow(f, r, h) ==> g == h
  {
    if SignAbove(f, r, g) && SignAbove(f, r, h) {
      var b :| r < b && ConstantSign(f, r, b, g);
      var c :| r < c && ConstantSign(f, r, c, h);
      assert Sign(f((r + Min(b, c)) / 2.0)) == g;
    }
    if SignBelow(f, r, g) && SignBelow(f, r, h) {
      var b :| b < r && ConstantSign(f, b, r, g);
      var c :| c < r && ConstantSign(f, c, r, h);
      assert Sign(f((r + Max(b, c)) / 2.0)) == g;
    }
  }

  lemma BoundaryFromSides(f: real -> real, r: real, below: int, above: int)
    requires SignBelow(f, r, below) && SignAbove(f, r, above)
    ensures SignBoundary(f, r) <==> below != above
  {
    forall g, h | SignBelow(f, r, g) && SignAbove(f, r, h) ensures g == below && h == above {
      OneSidedSignsAreUnique(f, r, g, below);
      OneSidedSignsAreUnique(f, r, h, above);
    }
  }

  // ---------------------------------------------------------------- the shape of a segment

  /** All that matters about a straight segment: strictly opposite ends meet in one crossing `c`,
      otherwise the interior has one sign, shared by every end that is not zero. */
  ghost predicate SegmentShape(f: real -> real, lo: real, hi: real, c: real) {
    && lo < hi
    && (if Opposite(f(lo), f(hi)) then
          && lo < c < hi && f(c) == 0.0
          && ConstantSign(f, lo, c, Sign(f(lo))) && ConstantSign(f, c, hi, Sign(f(hi)))
        else
          exists g :: ConstantSign(f, lo, hi, g)
            && (f(lo) != 0.0 ==> g == Sign(f(lo))) && (f(hi) != 0.0 ==> g == Sign(f(hi))))
  }

  /** The zero of the line through (s0, v0) and (s1, v1). */
  function Crossing(s0: real, v0: real, s1: real, v1: real): real
    requires v0 != v1
  {
    s0 + (s1 - s0) * (-v0) / (v1 - v0)
  }

  function CrossingOf(f: real -> real, lo: real, hi: real): real {
    if Opposite(f(lo), f(hi)) then Crossing(lo, f(lo), hi, f(hi)) else lo
  }

  function Crossings(f: real -> real, spots: seq<real>): (cs: seq<real>)
    requires spots != []
    ensures |cs| == |spots| - 1
  {
    seq(|spots| - 1, i requires 0 <= i < |spots| - 1 => CrossingOf(f, spots[i], spots[i + 1]))
  }

  lemma PositiveScale(d: real, k: real)
    requires d > 0.0 && k > 0.0
    ensures d * k > 0.0
  {
  }

  lemma SignOfMultiple(b: real, t: real)
    requires t > 0.0
    ensures Sign(b * t) == Sign(b)
  {
    if b > 0.0 { PositiveScale(b, t); } else if b < 0.0 { PositiveScale(-b, t); assert (-b) * t == -(b * t); }
  }

  lemma OppositeSigns(u: real, v: real)
    ensures u * v < 0.0 <==> Opposite(u, v)
  {
    if v > 0.0 { SignOfMultiple(u, v); } else if v < 0.0 { SignOfMultiple(u, -v); assert u * -v == -(u * v); }
  }

  /** On a line, the sign above a zero is the sign of the slope and the sign below is its opposite. */
  lemma SignsAroundZero(l: Line, z: real, x: real)
    requires l.At(z) == 0.0
    ensures x > z ==> Sign(l.At(x)) == Sign(l.b)
    ensures x < z ==> Sign(l.At(x)) == -Sign(l.b)
  {
    if x > z {
      assert l.At(x) == l.b * (x - z);
      SignOfMultiple(l.b, x - z);
    } else if x < z {
      assert l.At(x) == -(l.b * (z - x));
      SignOfMultiple(l.b, z - x);
    }
  }

  lemma CrossingIsAZero(l: Line, lo: real, hi: real)
    requires lo < hi && Opposite(l.At(lo), l.At(hi))
    ensures lo < Crossing(lo, l.At(lo), hi, l.At(hi)) < hi
    ensures l.At(Crossing(lo, l.At(lo), hi, l.At(hi))) == 0.0
  {
    var u, v, d := l.At(lo), l.At(hi), hi - lo;
    assert v - u == l.b * d;
    var w := -u / (v - u);
    assert w * (v - u) == -u;
    assert d * (-u) / (v - u) == d * w;
    FractionInside(u, v, w);
    PositiveScale(d, w);
    PositiveScale(d, 1.0 - w);
    assert d * (1.0 - w) == d - d * w;
    AlongTheLine(l, lo, d, w);
  }

  lemma AlongTheLine(l: Line, lo: real, d: real, w: real)
    ensures l.At(lo + d * w) == l.At(lo) + w * (l.b * d)
  {
  }

  lemma FractionInside(u: real, v: real, w: real)
    requires Opposite(u, v) && w * (v - u) == -u
    ensures 0.0 < w < 1.0
  {
    var d := v - u;
    assert (1.0 - w) * d == v;
    if w <= 0.0 { LineMonotone(Line(0.0, d), w, 0.0); }
    if w >= 1.0 { LineMonotone(Line(0.0, d), 1.0 - w, 0.0); }
  }

  lemma LineChangesOnce(l: Line, lo: real, hi: real, c: real)
    requires lo < c < hi && l.At(c) == 0.0 && Opposite(l.At(lo), l.At(hi))
    ensures forall x | lo < x < c :: Sign(l.At(x)) == Sign(l.At(lo))
    ensures forall x | c < x < hi :: Sign(l.At(x)) == Sign(l.At(hi))
  {
    forall x ensures (x < c ==> Sign(l.At(x)) == -Sign(l.b)) && (x > c ==> Sign(l.At(x)) == Sign(l.b)) {
      SignsAroundZero(l, c, x);
    }
  }

  lemma LineKeepsSign(l: Line, lo: real, hi: real) returns (g: int)
    requires lo < hi && !Opposite(l.At(lo), l.At(hi))
    ensures forall x | lo < x < hi :: Sign(l.At(x)) == g
    ensures (l.At(lo) != 0.0 ==> g == Sign(l.At(lo))) && (l.At(hi) != 0.0 ==> g == Sign(l.At(hi)))
  {
    var u, v := l.At(lo), l.At(hi);
    if u == 0.0 {
      forall x ensures x > lo ==> Sign(l.At(x)) == Sign(l.b) { SignsAroundZero(l, lo, x); }
      g := Sign(l.b);
    } else if v == 0.0 {
      forall x ensures x < hi ==> Sign(l.At(x)) == -Sign(l.b) { SignsAroundZero(l, hi, x); }
      g := -Sign(l.b);
    } else {
      g := Sign(u);
      forall x | lo < x < hi ensures Sign(l.At(x)) == g { BetweenTheEnds(l, lo, x, hi); }
    }
  }

  lemma BetweenTheEnds(l: Line, lo: real, x: real, hi: real)
    requires lo <= x <= hi
    ensures l.At(lo) <= l.At(x) <= l.At(hi) || l.At(hi) <= l.At(x) <= l.At(lo)
  {
    LineMonotone(l, lo, x);
    LineMonotone(l, x, hi);
  }

  /** A straight segment has the segment shape. */
  lemma StraightSegment(f: real -> real, l: Line, lo: real, hi: real)
    requires lo < hi && forall x | lo <= x <= hi :: f(x) == l.At(x)
    ensures SegmentShape(f, lo, hi, CrossingOf(f, lo, hi))
  {
    if Opposite(l.At(lo), l.At(hi)) {
      CrossingIsAZero(l, lo, hi);
      LineChangesOnce(l, lo, hi, Crossing(lo, l.At(lo), hi, l.At(hi)));
    } else {
      var g := LineKeepsSign(l, lo, hi);
      assert ConstantSign(f, lo, hi, g);
    }
  }

  // ---------------------------------------------------------------- boundaries of a shaped segment

  lemma SignAboveOnSegment(f: real -> real, lo: real, hi: real, c: real, x: real) returns (g: int)
    requires SegmentShape(f, lo, hi, c) && lo <= x < hi
    ensures SignAbove(f, x, g) && (f(x) != 0.0 ==> g == Sign(f(x)))
    ensures x == lo && f(lo) == 0.0 ==> g == Sign(f(0.5 * (lo + hi)))
    ensures Opposite(f(lo), f(hi)) ==> g == if x < c then Sign(f(lo)) else Sign(f(hi))
    ensures !Opposite(f(lo), f(hi)) ==> ConstantSign(f, lo, hi, g)
  {
    if Opposite(f(lo), f(hi)) {
      g := if x < c then Sign(f(lo)) else Sign(f(hi));
      assert x < c ==> ConstantSign(f, x, c, g);
      assert x >= c ==> ConstantSign(f, x, hi, g);
    } else {
      g :| ConstantSign(f, lo, hi, g)
        && (f(lo) != 0.0 ==> g == Sign(f(lo))) && (f(hi) != 0.0 ==> g == Sign(f(hi)));
      assert ConstantSign(f, x, hi, g);
    }
  }

  lemma SignBelowOnSegment(f: real -> real, lo: real, hi: real, c: real, x: real) returns (g: int)
    requires SegmentShape(f, lo, hi, c) && lo < x <= hi
    ensures SignBelow(f, x, g) && (f(x) != 0.0 ==> g == Sign(f(x)))
    ensures x == hi && f(hi) == 0.0 ==> g == Sign(f(0.5 * (lo + hi)))
    ensures Opposite(f(lo), f(hi)) ==> g == if x <= c then Sign(f(lo)) else Sign(f(hi))
    ensures !Opposite(f(lo), f(hi)) ==> ConstantSign(f, lo, hi, g)
  {
    if Opposite(f(lo), f(hi)) {
      g := if x <= c then Sign(f(lo)) else Sign(f(hi));
      assert x <= c ==> ConstantSign(f, lo, x, g);
      assert x > c ==> ConstantSign(f, c, x, g);
    } else {
      g :| ConstantSign(f, lo, hi, g)
        && (f(lo) != 0.0 ==> g == Sign(f(lo))) && (f(hi) != 0.0 ==> g == Sign(f(hi)));
      assert ConstantSign(f, lo, x, g);
    }
  }

  /** Strictly inside a segment the only boundary is the crossing. */
  lemma InnerBoundary(f: real -> real, lo: real, hi: real, c: real, r: real)
    requires SegmentShape(f, lo, hi, c) && lo < r < hi
    ensures SignBoundary(f, r) <==> Opposite(f(lo), f(hi)) && r == c
  {
    var below := SignBelowOnSegment(f, lo, hi, c, r);
    var above := SignAboveOnSegment(f, lo, hi, c, r);
    BoundaryFromSides(f, r, below, above);
    if !Opposite(f(lo), f(hi)) {
      assert Sign(f(r)) == below && Sign(f(r)) == above;
    }
  }

  /** At a kink a boundary is a zero whose two neighbouring segments have different signs. */
  lemma KinkBoundary(f: real -> real, a: real, r: real, b: real, c: real, d: real)
    requires SegmentShape(f, a, r, c) && SegmentShape(f, r, b, d)
    ensures SignBoundary(f, r) <==>
      f(r) == 0.0 && Sign(f(0.5 * (a + r))) != Sign(f(0.5 * (r + b)))
  {
    var below := SignBelowOnSegment(f, a, r, c, r);
    var above := SignAboveOnSegment(f, r, b, d, r);
    BoundaryFromSides(f, r, below, above);
  }

  // ---------------------------------------------------------------- the scan

  /** A function cut at increasing `spots` into shaped segments with crossings `cs`. */
  ghost predicate Shaped(f: real -> real, spots: seq<real>, cs: seq<real>) {
    && |spots| == |cs| + 1
    && (forall i | 0 <= i < |cs| :: SegmentShape(f, spots[i], spots[i + 1], cs[i]))
  }

  /** What the scan appends for segment `i`: its crossing, or its left kink when the signs differ. */
  function Found(f: real -> real, spots: seq<real>, cs: seq<real>, i: nat): seq<real>
    requires |spots| == |cs| + 1 && i < |cs|
  {
    var s0, s1 := spots[i], spots[i + 1];
    if Opposite(f(s0), f(s1)) then [cs[i]]
    else if f(s0) == 0.0 && i > 0 && Sign(f(0.5 * (spots[i - 1] + s0))) != Sign(f(0.5 * (s0 + s1))) then [s0]
    else []
  }

  /** `roots` lists exactly the sign boundaries strictly between `from` and `to`. */
  ghost predicate ListsBoundaries(f: real -> real, roots: seq<real>, from: real, to: real) {
    forall r :: r in roots <==> from < r < to && SignBoundary(f, r)
  }

  lemma FoundIsExact(f: real -> real, spots: seq<real>, cs: seq<real>, i: nat, r: real)
    requires Shaped(f, spots, cs) && i < |cs|
    requires spots[i] <= r < spots[i + 1] && (i == 0 ==> r != spots[0])
    ensures r in Found(f, spots, cs, i) <==> SignBoundary(f, r)
  {
    if r == spots[i] {
      KinkBoundary(f, spots[i - 1], r, spots[i + 1], cs[i - 1], cs[i]);
    } else {
      InnerBoundary(f, spots[i], spots[i + 1], cs[i], r);
    }
  }

  lemma {:induction false} SpotsIncrease(f: real -> real, spots: seq<real>, cs: seq<real>, i: nat)
    requires Shaped(f, spots, cs) && i <= |cs|
    ensures spots[0] <= spots[i] && (i > 0 ==> spots[0] < spots[i])
  {
    if i > 0 {
      SpotsIncrease(f, spots, cs, i - 1);
      assert SegmentShape(f, spots[i - 1], spots[i - 1 + 1], cs[i - 1]);
    }
  }

  lemma ScanStep(f: real -> real, spots: seq<real>, cs: seq<real>, i: nat, before: seq<real>, after: seq<real>)
    requires Shaped(f, spots, cs) && i < |cs|
    requires ListsBoundaries(f, before, spots[0], spots[i])
    requires after == before + Found(f, spots, cs, i)
    ensures ListsBoundaries(f, after, spots[0], spots[i + 1])
  {
    SpotsIncrease(f, spots, cs, i);
    assert SegmentShape(f, spots[i], spots[i + 1], cs[i]);
    forall r ensures r in after <==> spots[0] < r < spots[i + 1] && SignBoundary(f, r) {
      assert r in after <==> r in before || r in Found(f, spots, cs, i);
      if spots[0] < r && spots[i] <= r < spots[i + 1] { FoundIsExact(f, spots, cs, i, r); }
    }
  }

  /** The scan over the segments, followed by `sorted` and the removal of repeats. */
  method ScanSignChanges(f: real -> real, spots: seq<real>) returns (deduped: seq<real>)
    requires spots != [] && Shaped(f, spots, Crossings(f, spots))
    ensures Increasing(deduped)
    ensures ListsBoundaries(f, deduped, spots[0], spots[|spots| - 1])
  {
    var roots := [];
    for i := 0 to |spots| - 1
      invariant ListsBoundaries(f, roots, spots[0], spots[i])
    {
      var s0, s1 := spots[i], spots[i + 1];
      var v0, v1 := f(s0), f(s1);
      ghost var before := roots;
      OppositeSigns(v0, v1);
      if v0 * v1 < 0.0 {
        roots := roots + [Crossing(s0, v0, s1, v1)];
      } else if v0 == 0.0 {
        var left := if i > 0 then Some(Sign(f(0.5 * (spots[i - 1] + s0)))) else None;
        var right := Sign(f(0.5 * (s0 + s1)));
        if left != None && left.value != right {
          roots := roots + [s0];
        }
      }
      ScanStep(f, spots, Crossings(f, spots), i, before, roots);
    }
    deduped := SortedDistinct(roots);
  }

  /** A boundary inside the scanned range is a zero. */
  lemma BoundaryIsZero(f: real -> real, spots: seq<real>, cs: seq<real>, r: real)
    requires Shaped(f, spots, cs) && spots[0] < r < spots[|cs|] && SignBoundary(f, r)
    ensures f(r) == 0.0
  {
    var i := 0;
    while spots[i + 1] <= r
      invariant i < |cs| && spots[i] <= r
      decreases |cs| - i
    {
      i := i + 1;
    }
    FoundIsExact(f, spots, cs, i, r);
    assert SegmentShape(f, spots[i], spots[i + 1], cs[i]);
  }

  // ---------------------------------------------------------------- between boundaries

  lemma CarryWithinSegment(f: real -> real, lo: real, hi: real, c: real, x: real, y: real) returns (g: int)
    requires SegmentShape(f, lo, hi, c) && lo <= x < y <= hi
    requires forall r | x < r < y :: !SignBoundary(f, r)
    ensures SignAbove(f, x, g) && SignBelow(f, y, g)
    ensures (f(x) != 0.0 ==> g == Sign(f(x))) && (f(y) != 0.0 ==> g == Sign(f(y)))
  {
    g := SignAboveOnSegment(f, lo, hi, c, x);
    var h := SignBelowOnSegment(f, lo, hi, c, y);
    if Opposite(f(lo), f(hi)) {
      InnerBoundary(f, lo, hi, c, c);
    } else {
      assert Sign(f(0.5 * (lo + hi))) == g == h;
    }
  }

  lemma {:induction false} CarryFrom(f: real -> real, spots: seq<real>, cs: seq<real>, i: nat, x: real,
      y: real) returns (g: int)
    requires Shaped(f, spots, cs) && i < |cs| && spots[i] <= x < spots[i + 1]
    requires x < y <= spots[|cs|]
    requires forall r | x < r < y :: !SignBoundary(f, r)
    ensures SignAbove(f, x, g) && SignBelow(f, y, g)
    ensures (f(x) != 0.0 ==> g == Sign(f(x))) && (f(y) != 0.0 ==> g == Sign(f(y)))
    decreases |spots| - i
  {
    assert SegmentShape(f, spots[i], spots[i + 1], cs[i]);
    if y <= spots[i + 1] {
      g := CarryWithinSegment(f, spots[i], spots[i + 1], cs[i], x, y);
    } else {
      var k := spots[i + 1];
      g := CarryWithinSegment(f, spots[i], k, cs[i], x, k);
      assert SegmentShape(f, spots[i + 1], spots[i + 1 + 1], cs[i + 1]);
      var h := CarryFrom(f, spots, cs, i + 1, k, y);
      BoundaryFromSides(f, k, g, h);
    }
  }

  /** With no boundary strictly between `x` and `y`, the values there are not strictly opposite. */
  lemma NoOppositeSignsBetweenBoundaries(f: real -> real, spots: seq<real>, cs: seq<real>, x: real, y: real)
    requires Shaped(f, spots, cs) && spots[0] <= x < y <= spots[|cs|]
    requires forall r | x < r < y :: !SignBoundary(f, r)
    ensures !Opposite(f(x), f(y))
  {
    var i := 0;
    while spots[i + 1] <= x
      invariant i < |cs| && spots[i] <= x
      decreases |cs| - i
    {
      i := i + 1;
    }
    var g := CarryFrom(f, spots, cs, i, x, y);
  }

  // ---------------------------------------------------------------- beyond the last spot

  /** From `from` on the function is the line `l`. */
  ghost predicate StraightTail(f: real -> real, from: real, l: Line) {
    forall x | x >= from :: f(x) == l.At(x)
  }

  lemma TailValue(l: Line, a: real, b: real)
    ensures l.At(b) == l.At(a) + l.b * (b - a)
  {
  }

  lemma BoundaryOnTail(f: real -> real, from: real, l: Line, r: real)
    requires StraightTail(f, from, l) && from < r
    ensures SignBoundary(f, r) <==> f(r) == 0.0 && l.b != 0.0
  {
    var hi := r + 1.0;
    StraightSegment(f, l, from, hi);
    var c := CrossingOf(f, from, hi);
    InnerBoundary(f, from, hi, c, r);
    if l.At(r) == 0.0 {
      SignsAroundZero(l, r, from);
      SignsAroundZero(l, r, hi);
      assert r < c && l.b != 0.0 ==> Sign(f(r)) == Sign(f(from));
      assert r > c && l.b != 0.0 ==> Sign(f(r)) == Sign(f(hi));
    }
  }

  /** A boundary lies at or beyond `far` exactly when the value there does not yet have the
      sign the tail is heading for. */
  lemma TailBoundaryExists(f: real -> real, from: real, l: Line, far: real)
    requires StraightTail(f, from, l) && from < far
    ensures (exists r :: r >= far && SignBoundary(f, r)) <==> l.b != 0.0 && Sign(f(far)) != Sign(l.b)
  {
    forall r | r >= far && SignBoundary(f, r) ensures l.b != 0.0 && Sign(f(far)) != Sign(l.b) {
      BoundaryOnTail(f, from, l, r);
      SignsAroundZero(l, r, far);
    }
    if l.b != 0.0 && Sign(f(far)) != Sign(l.b) {
      var t := TailRoot(l.b, f(far));
      TailValue(l, far, far + t);
      BoundaryOnTail(f, from, l, far + t);
    }
  }

  lemma TailRoot(u: real, v: real) returns (t: real)
    requires u != 0.0 && Sign(v) != Sign(u)
    ensures t >= 0.0 && v + u * t == 0.0
  {
    if v == 0.0 {
      t := 0.0;
    } else if u > 0.0 {
      t := PositiveQuotient(-v, u);
    } else {
      t := PositiveQuotient(v, -u);
      assert t * -u == -(t * u);
    }
  }
}
