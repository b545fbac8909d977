/** Sums and dot products of real sequences, kept apart so that no other proof multiplies. */
module Vectors {

  function Sum(v: seq<real>): real {
    if v == [] then 0.0 else v[0] + Sum(v[1..])
  }

  function Dot(w: seq<real>, v: seq<real>): real
    requires |w| == |v|
  {
    if w == [] then 0.0 else w[0] * v[0] + Dot(w[1..], v[1..])
  }

  lemma AffineTerm(w: real, a: real, b: real, x: real)
    ensures w * (a + b * x) == w * a + (w * b) * x
  {
  }

  lemma Factored(p: real, q: real, x: real)
    ensures p * x + q * x == (p + q) * x
  {
  }

  lemma {:induction false} DotAffine(w: seq<real>, a: seq<real>, b: seq<real>, x: real, v: seq<real>)
    requires |w| == |a| == |b| == |v|
    requires forall i | 0 <= i < |w| :: v[i] == a[i] + b[i] * x
    ensures Dot(w, v) == Dot(w, a) + Dot(w, b) * x
  {
    if w != [] {
      DotAffine(w[1..], a[1..], b[1..], x, v[1..]);
      AffineTerm(w[0], a[0], b[0], x);
      Factored(w[0] * b[0], Dot(w[1..], b[1..]), x);
      assert w[0] * v[0] == w[0] * a[0] + (w[0] * b[0]) * x;
    }
  }

  lemma {:induction false} DotMonotone(w: seq<real>, a: seq<real>, b: seq<real>)
    requires |w| == |a| == |b|
    requires forall i | 0 <= i < |w| :: w[i] * a[i] <= w[i] * b[i]
    ensures Dot(w, a) <= Dot(w, b)
  {
    if w != [] {
      DotMonotone(w[1..], a[1..], b[1..]);
      assert w[0] * a[0] <= w[0] * b[0];
    }
  }

  /** A product kept closed, so that a proof can treat it as one term. */
  function Product(a: real, b: real): real { a * b }

  lemma ProductDistributes(k: real, x: real, y: real)
    ensures Product(k, x + y) == Product(k, x) + Product(k, y)
    ensures Product(k, x - y) == Product(k, x) - Product(k, y)
    ensures Product(x - y, k) == Product(x, k) - Product(y, k)
  {
  }

  lemma ProductSigns(a: real, b: real)
    ensures a >= 0.0 && b >= 0.0 ==> Product(a, b) >= 0.0
    ensures a > 0.0 && b > 0.0 ==> Product(a, b) > 0.0
    ensures Product(1.0, b) == b && Product(0.0, b) == 0.0
  {
    if a >= 0.0 && b >= 0.0 { ProductNonNegative(a, b); }
    if a > 0.0 && b > 0.0 { ProductPositive(a, b); }
  }

  lemma ProductNonNegative(a: real, b: real)
    requires a >= 0.0 && b >= 0.0
    ensures a * b >= 0.0
  {
  }

  lemma ProductPositive(a: real, b: real)
    requires a > 0.0 && b > 0.0
    ensures a * b > 0.0
  {
  }

  /** A straight line in one variable. */
  datatype Line = Line(a: real, b: real) {
    function At(x: real): real { a + b * x }
  }

  lemma LineMonotone(l: Line, x: real, y: real)
    requires x <= y
    ensures l.b >= 0.0 ==> l.At(x) <= l.At(y)
    ensures l.b <= 0.0 ==> l.At(x) >= l.At(y)
  {
    var d := y - x;
    assert l.At(y) == l.At(x) + l.b * d;
    assert l.b >= 0.0 ==> l.b * d >= 0.0;
    assert l.b <= 0.0 ==> (-l.b) * d >= 0.0;
  }

  /** A line that falls (or rises) by at least one unit per unit passes every level. */
  lemma SteepLinePassesLevel(l: Line, lo: real, m: real) returns (t: real)
    requires l.b <= -1.0 || l.b >= 1.0
    ensures t >= 0.0
    ensures l.b <= -1.0 ==> l.At(lo + t) < m
    ensures l.b >= 1.0 ==> l.At(lo + t) > m
  {
    var gap := m - l.At(lo);
    t := (if gap < 0.0 then -gap else gap) + 1.0;
    LineShift(l, lo, t);
    hide Line.At, Product;
    ProductDistributes(t, l.b, 1.0);
    ProductDistributes(t, l.b, -1.0);
    ProductSigns(l.b - 1.0, t);
    ProductDistributes(t, -1.0, l.b);
    ProductSigns(-1.0 - l.b, t);
    ProductSigns(1.0, t);
    MinusOneTimes(t);
  }

  lemma LineShift(l: Line, lo: real, t: real)
    ensures l.At(lo + t) == l.At(lo) + Product(l.b, t)
  {
  }

  lemma MinusOneTimes(t: real)
    ensures Product(-1.0, t) == -t
  {
  }

  lemma PositiveQuotient(a: real, b: real) returns (q: real)
    requires a > 0.0 && b > 0.0
    ensures q == a / b && q > 0.0 && q * b == a
  {
    q := a / b;
    if q <= 0.0 { LineMonotone(Line(0.0, b), q, 0.0); }
  }

  function Scaled(s: seq<real>, total: real): (r: seq<real>)
    requires total > 0.0
    ensures |r| == |s|
  {
    seq(|s|, i requires 0 <= i < |s| => s[i] / total)
  }

  lemma {:induction false} SumOfScaled(s: seq<real>, total: real)
    requires total > 0.0
    ensures Sum(Scaled(s, total)) == Sum(s) / total
  {
    if s != [] {
      SumOfScaled(s[1..], total);
      assert Scaled(s, total)[1..] == Scaled(s[1..], total);
      QuotientAdds(s[0], Sum(s[1..]), total);
    }
  }

  lemma QuotientAdds(a: real, b: real, d: real)
    requires d > 0.0
    ensures (a + b) / d == a / d + b / d
  {
  }

  lemma SelfRatio(t: real)
    requires t > 0.0
    ensures t / t == 1.0
  {
  }

  lemma {:induction false} SumOfAppend(s: seq<real>, x: real)
    ensures Sum(s + [x]) == Sum(s) + x
  {
    if s != [] {
      SumOfAppend(s[1..], x);
      assert (s + [x])[1..] == s[1..] + [x];
    }
  }
}
