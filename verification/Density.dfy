/** Quantile grids, their inverse, and the probability field differenced from them. */
module Density {
  import opened Options
  import opened Vectors

  // ---------------------------------------------------------------- stable sorting

  predicate Ascends<T>(key: T -> real, s: seq<T>) { forall i, j | 0 <= i < j < |s| :: key(s[i]) <= key(s[j]) }

  function Place<T>(key: T -> real, s: seq<T>, x: T): (r: seq<T>)
    ensures |r| == |s| + 1
    ensures multiset(r) == multiset(s) + multiset{x}
  {
    if s == [] || key(s[|s| - 1]) <= key(x) then s + [x]
    else
      assert s == s[..|s| - 1] + [s[|s| - 1]];
      Place(key, s[..|s| - 1], x) + [s[|s| - 1]]
  }

  /** Stable insertion sort. */
  function SortedOn<T>(key: T -> real, s: seq<T>): (r: seq<T>)
    ensures |r| == |s|
    ensures multiset(r) == multiset(s)
  {
    if s == [] then []
    else
      assert s == s[..|s| - 1] + [s[|s| - 1]];
      Place(key, SortedOn(key, s[..|s| - 1]), s[|s| - 1])
  }

  lemma PlaceMembers<T>(key: T -> real, s: seq<T>, x: T)
    ensures forall y :: y in Place(key, s, x) ==> y in s || y == x
  {
    forall y | y in Place(key, s, x) ensures y in s || y == x {
      assert y in multiset(Place(key, s, x));
    }
  }

  lemma {:induction false} PlaceKeeps<T>(key: T -> real, s: seq<T>, x: T)
    requires Ascends(key, s)
    ensures Ascends(key, Place(key, s, x))
  {
    if s != [] && !(key(s[|s| - 1]) <= key(x)) {
      var front, last := s[..|s| - 1], s[|s| - 1];
      PlaceKeeps(key, front, x);
      PlaceMembers(key, front, x);
      var r := Place(key, front, x);
      assert Place(key, s, x) == r + [last];
      hide Place;
      assert forall y | y in front :: key(y) <= key(last);
      forall i | 0 <= i < |r| ensures key(r[i]) <= key(last) {
        assert r[i] in r;
      }
    }
  }

  lemma {:induction false} SortIsAscending<T>(key: T -> real, s: seq<T>)
    ensures Ascends(key, SortedOn(key, s))
  {
    if s != [] {
      SortIsAscending(key, s[..|s| - 1]);
      PlaceKeeps(key, SortedOn(key, s[..|s| - 1]), s[|s| - 1]);
    }
  }

  lemma PlaceLast<T>(key: T -> real, s: seq<T>, x: T)
    requires s == [] || key(s[|s| - 1]) <= key(x)
    ensures Place(key, s, x) == s + [x]
  {
  }

  lemma {:induction false} SortedStays<T>(key: T -> real, s: seq<T>)
    requires Ascends(key, s)
    ensures SortedOn(key, s) == s
  {
    hide Place;
    if s != [] {
      var front, last := s[..|s| - 1], s[|s| - 1];
      SortedStays(key, front);
      PlaceLast(key, front, last);
      assert s == front + [last];
    }
  }

  // ---------------------------------------------------------------- reading a piecewise-linear table

  type Point = (real, real)

  /** (tau, price) pairs. */
  type Grid = seq<Point>

  function First(p: Point): real { p.0 }

  function Flip(g: Grid): (r: Grid)
    ensures |r| == |g|
  {
    seq(|g|, i requires 0 <= i < |g| => (g[i].1, g[i].0))
  }

  /** The line through two points, flat at the first when they coincide in x. */
  function Blend(p: Point, q: Point, x: real): real {
    if q.0 == p.0 then p.1 else p.1 + Product((x - p.0) / (q.0 - p.0), q.1 - p.1)
  }

  /** The first segment holding `x`; the last value when none does. */
  function Seek(s: seq<Point>, x: real): real
    requires s != []
  {
    if |s| == 1 then s[0].1 else if s[0].0 <= x <= s[1].0 then Blend(s[0], s[1], x) else Seek(s[1..], x)
  }

  /** Saturates outside the table. */
  function Read(s: seq<Point>, x: real): real
    requires s != []
  {
    if x <= s[0].0 then s[0].1 else if x >= s[|s| - 1].0 then s[|s| - 1].1 else Seek(s, x)
  }

  /** Price at cumulative probability `tau`; none for an empty grid. */
  function InterpolateQuantile(g: Grid, tau: real): Option<real> {
    if g == [] then None else Some(Read(SortedOn(First, g), tau))
  }

  /** Cumulative probability at `price`: the same reading with the coordinates exchanged. */
  function InvertQuantile(g: Grid, price: real): (r: Option<real>)
    ensures r.Some? <==> g != []
  {
    if g == [] then None else Some(Read(SortedOn(First, Flip(g)), price))
  }

  /** Strictly increasing in both coordinates. */
  predicate Rises(s: seq<Point>) { s != [] && forall i, j | 0 <= i < j < |s| :: s[i].0 < s[j].0 && s[i].1 < s[j].1 }

  lemma FlipRises(g: Grid)
    requires Rises(g)
    ensures Rises(Flip(g)) && Flip(Flip(g)) == g
  {
  }

  lemma RisingStays(g: Grid)
    requires Rises(g)
    ensures SortedOn(First, g) == g
  {
    hide SortedOn;
    SortedStays(First, g);
  }

  lemma RisingNeedsNoSort(g: Grid)
    requires Rises(g)
    ensures Rises(Flip(g)) && Flip(Flip(g)) == g
    ensures SortedOn(First, g) == g && SortedOn(First, Flip(g)) == Flip(g)
  {
    hide Rises, Flip, SortedOn;
    FlipRises(g);
    RisingStays(g);
    RisingStays(Flip(g));
  }

  lemma BlendEnds(p: Point, q: Point)
    requires p.0 < q.0
    ensures Blend(p, q, p.0) == p.1 && Blend(p, q, q.0) == q.1
  {
    var d := q.0 - p.0;
    assert d / d == 1.0 && 0.0 / d == 0.0;
    ProductSigns(0.0, q.1 - p.1);
  }

  /** The weight of `x` between two ends, and the distance it stands for. */
  lemma WeightIsUnit(lo: real, x: real, hi: real) returns (w: real)
    requires lo < hi && lo <= x <= hi
    ensures w == (x - lo) / (hi - lo) && 0.0 <= w <= 1.0 && Product(w, hi - lo) == x - lo
    ensures lo < x ==> 0.0 < w
  {
    w := (x - lo) / (hi - lo);
    QuotientProduct(x - lo, hi - lo);
    hide Product;
    ProductDistributes(hi - lo, 1.0, w);
    ProductSigns(1.0, hi - lo);
    NonNegativeFactor(w, hi - lo);
    NonNegativeFactor(1.0 - w, hi - lo);
    ProductSigns(0.0, hi - lo);
  }

  lemma QuotientProduct(a: real, b: real)
    requires b > 0.0
    ensures Product(a / b, b) == a
  {
  }

  lemma NonNegativeFactor(a: real, b: real)
    requires b > 0.0 && Product(a, b) >= 0.0
    ensures a >= 0.0
  {
    if a < 0.0 { ProductPositive(-a, b); }
  }

  lemma BlendStaysBetween(p: Point, q: Point, x: real, y: real)
    requires p.0 < q.0 && p.1 < q.1 && p.0 <= x <= y <= q.0
    ensures p.1 <= Blend(p, q, x) <= Blend(p, q, y) <= q.1
    ensures x < y ==> Blend(p, q, x) < Blend(p, q, y)
  {
    hide Product;
    var v := WeightIsUnit(p.0, x, q.0);
    var w := WeightIsUnit(p.0, y, q.0);
    OrderedWeights(v, w, q.0 - p.0, q.1 - p.1);
  }

  lemma OrderedWeights(v: real, w: real, dx: real, dy: real)
    requires 0.0 <= v && w <= 1.0 && dx > 0.0 && dy > 0.0 && Product(v, dx) <= Product(w, dx)
    ensures 0.0 <= Product(v, dy) <= Product(w, dy) <= dy
    ensures Product(v, dx) < Product(w, dx) ==> Product(v, dy) < Product(w, dy)
  {
    hide Product;
    ProductDistributes(dx, w, v);
    NonNegativeFactor(w - v, dx);
    ProductDistributes(dy, w, v);
    ProductDistributes(dy, 1.0, w);
    ProductSigns(w - v, dy);
    ProductSigns(v, dy);
    ProductSigns(1.0 - w, dy);
    ProductSigns(1.0, dy);
  }

  /** Reading the flipped line at the value of the line gives the argument back. */
  lemma BlendInverts(p: Point, q: Point, x: real)
    requires p.0 < q.0 && p.1 < q.1 && p.0 <= x <= q.0
    ensures Blend((p.1, p.0), (q.1, q.0), Blend(p, q, x)) == x
  {
    var w := WeightIsUnit(p.0, x, q.0);
    ProductOver(w, q.1 - p.1);
    hide Product;
  }

  lemma ProductOver(w: real, d: real)
    requires d > 0.0
    ensures Product(w, d) / d == w
  {
  }

  lemma {:induction false} SeekOnSegment(s: seq<Point>, i: nat, x: real)
    requires Rises(s) && i + 1 < |s| && s[i].0 <= x <= s[i + 1].0
    ensures Seek(s, x) == Blend(s[i], s[i + 1], x)
  {
    if i > 0 {
      if x <= s[1].0 {
        assert i == 1 && x == s[1].0;
        BlendEnds(s[0], s[1]);
        BlendEnds(s[1], s[2]);
      } else {
        SeekOnSegment(s[1..], i - 1, x);
      }
    }
  }

  /** Reading anywhere on a segment is reading its line, ends included. */
  lemma ReadOnSegment(s: seq<Point>, i: nat, x: real)
    requires Rises(s) && i + 1 < |s| && s[i].0 <= x <= s[i + 1].0
    ensures Read(s, x) == Blend(s[i], s[i + 1], x)
  {
    BlendEnds(s[i], s[i + 1]);
    if s[0].0 < x < s[|s| - 1].0 {
      SeekOnSegment(s, i, x);
    } else if x <= s[0].0 {
      assert i == 0;
    } else {
      assert i == |s| - 2;
    }
  }

  lemma {:induction false} FindSegment(s: seq<Point>, x: real) returns (i: nat)
    requires Rises(s) && |s| >= 2 && s[0].0 <= x <= s[|s| - 1].0
    ensures i + 1 < |s| && s[i].0 <= x <= s[i + 1].0
  {
    i := 0;
    while s[i + 1].0 < x
      invariant i + 1 < |s| && s[i].0 <= x
      decreases |s| - i
    {
      i := i + 1;
    }
  }

  /** Inverting the interpolated quantile returns tau, for every tau the grid covers. */
  lemma InvertUndoesInterpolate(g: Grid, tau: real)
    requires Rises(g) && g[0].0 <= tau <= g[|g| - 1].0
    ensures InvertQuantile(g, InterpolateQuantile(g, tau).value) == Some(tau)
  {
    RisingNeedsNoSort(g);
    if |g| > 1 {
      var i := FindSegment(g, tau);
      ReadOnSegment(g, i, tau);
      var v := Blend(g[i], g[i + 1], tau);
      BlendStaysBetween(g[i], g[i + 1], tau, tau);
      ReadOnSegment(Flip(g), i, v);
      BlendInverts(g[i], g[i + 1], tau);
    }
  }

  /** Reading a rising table is monotone everywhere and strictly so inside it. */
  lemma ReadIsMonotone(s: seq<Point>, x: real, y: real)
    requires Rises(s) && x <= y
    ensures s[0].1 <= Read(s, x) <= Read(s, y) <= s[|s| - 1].1
    ensures |s| >= 2 && x < y && x < s[|s| - 1].0 && s[0].0 < y ==> Read(s, x) < Read(s, y)
  {
    hide Seek, Blend;
    if |s| > 1 {
      var a := if x < s[0].0 then s[0].0 else if x > s[|s| - 1].0 then s[|s| - 1].0 else x;
      var b := if y < s[0].0 then s[0].0 else if y > s[|s| - 1].0 then s[|s| - 1].0 else y;
      ReadInside(s, a, b);
    }
  }

  lemma ReadInside(s: seq<Point>, x: real, y: real)
    requires Rises(s) && |s| > 1 && s[0].0 <= x <= y <= s[|s| - 1].0
    ensures s[0].1 <= Read(s, x) <= Read(s, y) <= s[|s| - 1].1
    ensures x < y ==> Read(s, x) < Read(s, y)
  {
    hide Seek, Blend, Read;
    var i := FindSegment(s, x);
    var j := FindSegment(s, y);
    ReadOnSegment(s, i, x);
    ReadOnSegment(s, j, y);
    BlendStaysBetween(s[i], s[i + 1], x, x);
    BlendStaysBetween(s[j], s[j + 1], y, y);
    if i == j {
      BlendStaysBetween(s[i], s[i + 1], x, y);
    } else if i < j {
      BlendStaysBetween(s[i], s[i + 1], x, s[i + 1].0);
      BlendEnds(s[i], s[i + 1]);
      BlendStaysBetween(s[j], s[j + 1], s[j].0, y);
      BlendEnds(s[j], s[j + 1]);
    } else {
      assert x == y;
    }
  }

  /** A share of a distance, over another: `w` is `part` of `whole`. */
  lemma Proportion(w: real, part: real, whole: real, distance: real)
    requires Product(w, whole) == part
    ensures Product(Product(w, distance), whole) == Product(part, distance)
  {
  }

  /** Between neighbouring points the table is read on the straight line through them. */
  lemma ReadIsStraight(s: seq<Point>, i: nat, x: real)
    requires Rises(s) && i + 1 < |s| && s[i].0 <= x <= s[i + 1].0
    ensures Product(Read(s, x) - s[i].1, s[i + 1].0 - s[i].0) == Product(x - s[i].0, s[i + 1].1 - s[i].1)
  {
    ReadOnSegment(s, i, x);
    hide Product, Read, Seek;
    var w := WeightIsUnit(s[i].0, x, s[i + 1].0);
    Proportion(w, x - s[i].0, s[i + 1].0 - s[i].0, s[i + 1].1 - s[i].1);
  }

  // ---------------------------------------------------------------- between horizons

  datatype Horizon = Horizon(minutes: real, grid: Grid)

  function MinutesOf(h: Horizon): real { h.minutes }

  function PriceAt(g: Grid, k: nat, spot: real): real { if k < |g| then g[k].1 else spot }

  function Anchor(g: Grid, spot: real): (r: Grid)
    ensures |r| == |g|
  {
    seq(|g|, k requires 0 <= k < |g| => (g[k].0, spot))
  }

  function Mix(a: real, b: real, w: real): real { a + Product(w, b - a) }

  /** Displacement interpolation: each tau's price moves in a straight line. */
  function Slide(taus: Grid, lo: Grid, hi: Grid, w: real, spot: real): (r: Grid)
    ensures |r| == |taus|
  {
    seq(|taus|, k requires 0 <= k < |taus| => (taus[k].0, Mix(PriceAt(lo, k, spot), PriceAt(hi, k, spot), w)))
  }

  /** Weight of the later horizon on the time scale `root`, which `density.ts` takes to be the square root. */
  function TimeWeight(lo: real, at: real, hi: real, root: real -> real): real {
    if root(hi) == root(lo) then 0.0 else (root(at) - root(lo)) / (root(hi) - root(lo))
  }

  /** First pair of neighbours around `at`. */
  function Bracketed(taus: Grid, track: seq<Horizon>, at: real, spot: real, root: real -> real): Grid
    requires track != []
  {
    if |track| == 1 then track[0].grid
    else if track[0].minutes <= at <= track[1].minutes then
      Slide(taus, track[0].grid, track[1].grid, TimeWeight(track[0].minutes, at, track[1].minutes, root), spot)
    else Bracketed(taus, track[1..], at, spot, root)
  }

  /** The grid `minutes` ahead; none without horizons. */
  function QuantilesAtMinutes(horizons: seq<Horizon>, minutes: real, spot: real, root: real -> real): Option<Grid> {
    if horizons == [] then None
    else
      var sorted := SortedOn(MinutesOf, horizons);
      var taus, last := sorted[0].grid, sorted[|sorted| - 1];
      if minutes <= 0.0 then Some(Anchor(taus, spot))
      else if minutes >= last.minutes then Some(last.grid)
      else Some(Bracketed(taus, [Horizon(0.0, Anchor(taus, spot))] + sorted, minutes, spot, root))
  }

  /** The time scale is strictly increasing. */
  ghost predicate Scale(root: real -> real) { forall x: real, y: real | x < y :: root(x) < root(y) }

  ghost predicate SameTaus(g: Grid, h: Grid) { |g| == |h| && forall k | 0 <= k < |g| :: g[k].0 == h[k].0 }

  /** Rising, or the point mass at the anchor. */
  ghost predicate RisesOrPoint(g: Grid) {
    g != [] && (forall i, j | 0 <= i < j < |g| :: g[i].0 < g[j].0 && g[i].1 <= g[j].1)
  }

  lemma SlideRises(taus: Grid, lo: Grid, hi: Grid, w: real, spot: real)
    requires SameTaus(taus, lo) && SameTaus(taus, hi) && RisesOrPoint(lo) && Rises(hi) && 0.0 < w <= 1.0
    ensures Rises(Slide(taus, lo, hi, w, spot)) && SameTaus(taus, Slide(taus, lo, hi, w, spot))
  {
    hide Mix;
    var r := Slide(taus, lo, hi, w, spot);
    forall i, j | 0 <= i < j < |r| ensures r[i].0 < r[j].0 && r[i].1 < r[j].1 {
      MixIsStrict(lo[i].1, lo[j].1, hi[i].1, hi[j].1, w);
    }
  }

  lemma MixIsStrict(a: real, b: real, c: real, d: real, w: real)
    requires a <= b && c < d && 0.0 < w <= 1.0
    ensures Mix(a, c, w) < Mix(b, d, w)
  {
    hide Product;
    ProductSigns(w, d - c);
    ProductSigns(1.0 - w, b - a);
    ProductSigns(1.0, b - a);
    ProductDistributes(b - a, 1.0, w);
    ProductDistributes(w, d, b);
    ProductDistributes(w, c, a);
    ProductDistributes(w, d, c);
    ProductDistributes(w, b, a);
  }

  lemma TimeWeightIsPositive(lo: real, at: real, hi: real, root: real -> real)
    requires Scale(root) && lo < at <= hi
    ensures 0.0 < TimeWeight(lo, at, hi, root) <= 1.0
  {
    assert root(lo) < root(at);
    assert at < hi ==> root(at) < root(hi);
    var w := WeightIsUnit(root(lo), root(at), root(hi));
  }

  lemma {:induction false} BracketedRises(taus: Grid, track: seq<Horizon>, at: real, spot: real, root: real -> real)
    requires Scale(root) && Ascends(MinutesOf, track) && |track| >= 2
    requires track[0].minutes < at <= track[|track| - 1].minutes
    requires forall h | h in track :: SameTaus(taus, h.grid) && RisesOrPoint(h.grid)
    requires forall i | 1 <= i < |track| :: Rises(track[i].grid)
    ensures Rises(Bracketed(taus, track, at, spot, root)) && SameTaus(taus, Bracketed(taus, track, at, spot, root))
  {
    var lo, hi := track[0], track[1];
    assert lo in track && hi in track;
    hide Rises, RisesOrPoint, SameTaus, Slide, TimeWeight;
    if at <= hi.minutes {
      TimeWeightIsPositive(lo.minutes, at, hi.minutes, root);
      SlideRises(taus, lo.grid, hi.grid, TimeWeight(lo.minutes, at, hi.minutes, root), spot);
    } else {
      BracketedRises(taus, track[1..], at, spot, root);
    }
  }

  /** Grids interpolated between rising horizons still rise, at every moment ahead. */
  lemma QuantilesRiseAtEveryMoment(horizons: seq<Horizon>, minutes: real, spot: real, root: real -> real, taus: Grid)
    requires horizons != [] && minutes > 0.0 && Scale(root)
    requires forall h | h in horizons :: h.minutes > 0.0 && Rises(h.grid) && SameTaus(taus, h.grid)
    ensures var g := QuantilesAtMinutes(horizons, minutes, spot, root);
      g.Some? && Rises(g.value) && SameTaus(taus, g.value)
  {
    hide SortedOn, Bracketed, Rises, SameTaus;
    SortIsAscending(MinutesOf, horizons);
    var sorted := SortedOn(MinutesOf, horizons);
    forall i | 0 <= i < |sorted| ensures sorted[i] in horizons {
      assert sorted[i] in multiset(sorted);
    }
    var last := sorted[|sorted| - 1];
    if minutes < last.minutes {
      TrackRises(sorted, minutes, spot, root, taus);
    }
  }

  lemma TrackRises(sorted: seq<Horizon>, minutes: real, spot: real, root: real -> real, taus: Grid)
    requires sorted != [] && 0.0 < minutes < sorted[|sorted| - 1].minutes && Scale(root) && Ascends(MinutesOf, sorted)
    requires forall h | h in sorted :: h.minutes > 0.0 && Rises(h.grid) && SameTaus(taus, h.grid)
    ensures var base := sorted[0].grid;
      var g := Bracketed(base, [Horizon(0.0, Anchor(base, spot))] + sorted, minutes, spot, root);
      Rises(g) && SameTaus(taus, g)
  {
    var base := sorted[0].grid;
    var track := [Horizon(0.0, Anchor(base, spot))] + sorted;
    assert sorted[0] in sorted;
    assert RisesOrPoint(track[0].grid) && SameTaus(base, track[0].grid);
    forall h | h in sorted ensures SameTaus(base, h.grid) && RisesOrPoint(h.grid) {
    }
    assert SameTaus(taus, base);
    hide Rises, RisesOrPoint, Bracketed, Anchor;
    forall i | 1 <= i < |track| ensures Rises(track[i].grid) && track[i] in sorted {
      assert track[i] == sorted[i - 1];
    }
    BracketedRises(base, track, minutes, spot, root);
  }

  /** The horizons in order of time, after the anchor at the spot. */
  function Track(horizons: seq<Horizon>, spot: real): seq<Horizon> {
    var sorted := SortedOn(MinutesOf, horizons);
    if sorted == [] then [] else [Horizon(0.0, Anchor(sorted[0].grid, spot))] + sorted
  }

  /** Price `k` moves in a straight line of the time scale from its place at `lo` to its place at `hi`. */
  ghost predicate MovesStraight(g: Grid, lo: Horizon, hi: Horizon, k: nat, minutes: real, root: real -> real)
    requires k < |g| && k < |lo.grid| && k < |hi.grid|
  {
    Product(g[k].1 - lo.grid[k].1, root(hi.minutes) - root(lo.minutes))
      == Product(root(minutes) - root(lo.minutes), hi.grid[k].1 - lo.grid[k].1)
  }

  lemma SlideIsStraight(taus: Grid, lo: Horizon, hi: Horizon, minutes: real, spot: real, root: real -> real, k: nat)
    requires Scale(root) && lo.minutes < minutes <= hi.minutes && k < |taus| == |lo.grid| == |hi.grid|
    ensures var w := TimeWeight(lo.minutes, minutes, hi.minutes, root);
      MovesStraight(Slide(taus, lo.grid, hi.grid, w, spot), lo, hi, k, minutes, root)
  {
    assert root(lo.minutes) < root(minutes);
    assert minutes < hi.minutes ==> root(minutes) < root(hi.minutes);
    hide Product;
    var w := WeightIsUnit(root(lo.minutes), root(minutes), root(hi.minutes));
    Proportion(w, root(minutes) - root(lo.minutes), root(hi.minutes) - root(lo.minutes),
               hi.grid[k].1 - lo.grid[k].1);
  }

  lemma {:induction false} BracketedFinds(taus: Grid, track: seq<Horizon>, i: nat, at: real, spot: real,
      root: real -> real)
    requires Ascends(MinutesOf, track) && i + 1 < |track| && track[i].minutes < at <= track[i + 1].minutes
    ensures var lo, hi := track[i], track[i + 1];
      Bracketed(taus, track, at, spot, root)
        == Slide(taus, lo.grid, hi.grid, TimeWeight(lo.minutes, at, hi.minutes, root), spot)
  {
    hide Slide, TimeWeight;
    if i > 0 {
      assert MinutesOf(track[1]) <= MinutesOf(track[i]);
      BracketedFinds(taus, track[1..], i - 1, at, spot, root);
    }
  }

  lemma AtTheEnd(lo: Horizon, hi: Horizon, k: nat, root: real -> real)
    requires k < |lo.grid| && k < |hi.grid|
    ensures MovesStraight(hi.grid, lo, hi, k, hi.minutes, root)
  {
  }

  /** Between neighbouring horizons every price moves straight on the time scale, from the spot at the present
      moment and through each horizon's own grid; beyond the last horizon its grid stays. */
  lemma QuantilesMoveStraight(horizons: seq<Horizon>, i: nat, minutes: real, spot: real, root: real -> real, taus: Grid,
      k: nat)
    requires Scale(root) && k < |taus| && forall h | h in horizons :: h.minutes > 0.0 && SameTaus(taus, h.grid)
    requires i + 1 < |Track(horizons, spot)|
    requires Track(horizons, spot)[i].minutes < minutes <= Track(horizons, spot)[i + 1].minutes
    requires i + 2 < |Track(horizons, spot)| ==>
      Track(horizons, spot)[i + 1].minutes < Track(horizons, spot)[i + 2].minutes
    ensures var g, track := QuantilesAtMinutes(horizons, minutes, spot, root), Track(horizons, spot);
      && g.Some? && |g.value| == |taus| == |track[i].grid| == |track[i + 1].grid|
      && MovesStraight(g.value, track[i], track[i + 1], k, minutes, root)
  {
    hide SortedOn, Bracketed, Slide, TimeWeight, MovesStraight, Product, Ascends;
    var sorted, track := SortedOn(MinutesOf, horizons), Track(horizons, spot);
    TrackAscends(horizons, spot, taus);
    var last := sorted[|sorted| - 1];
    if minutes < last.minutes {
      BracketedFinds(sorted[0].grid, track, i, minutes, spot, root);
      SlideIsStraight(sorted[0].grid, track[i], track[i + 1], minutes, spot, root, k);
    } else {
      LastIsReached(track, i, minutes);
      AtTheEnd(track[i], track[i + 1], k, root);
    }
  }

  lemma LastIsReached(track: seq<Horizon>, i: nat, minutes: real)
    requires Ascends(MinutesOf, track) && i + 1 < |track|
    requires track[|track| - 1].minutes <= minutes <= track[i + 1].minutes
    requires i + 2 < |track| ==> track[i + 1].minutes < track[i + 2].minutes
    ensures i + 2 == |track| && minutes == track[i + 1].minutes
  {
    var last := track[|track| - 1];
    forall j | 0 <= j < |track| ensures track[j].minutes <= last.minutes {
      assert j < |track| - 1 ==> MinutesOf(track[j]) <= MinutesOf(last);
    }
    hide Ascends;
  }

  lemma TrackAscends(horizons: seq<Horizon>, spot: real, taus: Grid)
    requires horizons != [] && forall h | h in horizons :: h.minutes > 0.0 && SameTaus(taus, h.grid)
    ensures Ascends(MinutesOf, Track(horizons, spot))
    ensures forall h | h in Track(horizons, spot) :: h.minutes >= 0.0 && |h.grid| == |taus|
  {
    hide SortedOn;
    var sorted, track := SortedOn(MinutesOf, horizons), Track(horizons, spot);
    SortIsAscending(MinutesOf, horizons);
    forall h | h in sorted ensures h.minutes > 0.0 && |h.grid| == |taus| {
      assert h in multiset(sorted);
    }
    assert sorted[0] in sorted;
    forall a, b | 0 <= a < b < |track| ensures MinutesOf(track[a]) <= MinutesOf(track[b]) {
      assert track[b] == sorted[b - 1] && sorted[b - 1] in sorted;
      if a > 0 { assert MinutesOf(sorted[a - 1]) <= MinutesOf(sorted[b - 1]); }
    }
  }

  // ---------------------------------------------------------------- one column of the field

  /** Cumulative probability at each edge. */
  function Levels(g: Grid, edges: seq<real>): (r: seq<real>)
    requires g != []
    ensures |r| == |edges|
  {
    seq(|edges|, i requires 0 <= i < |edges| => InvertQuantile(g, edges[i]).value)
  }

  /** Probability between neighbouring levels, clamped at zero. */
  function Masses(levels: seq<real>): (r: seq<real>)
    ensures |r| == if |levels| <= 1 then 0 else |levels| - 1
  {
    if |levels| <= 1 then [] else [Max(0.0, levels[1] - levels[0])] + Masses(levels[1..])
  }

  predicate NonDecreasing(s: seq<real>) { forall i, j | 0 <= i < j < |s| :: s[i] <= s[j] }

  /** Over rising levels the clamp never acts and the masses telescope. */
  lemma {:induction false} MassesTelescope(levels: seq<real>)
    requires NonDecreasing(levels) && levels != []
    ensures Sum(Masses(levels)) == levels[|levels| - 1] - levels[0]
    ensures forall i | 0 <= i < |levels| - 1 :: Masses(levels)[i] == levels[i + 1] - levels[i]
  {
    if |levels| > 1 {
      MassesTelescope(levels[1..]);
      assert Masses(levels)[1..] == Masses(levels[1..]);
    }
  }

  /** Normalised bin probabilities; all zero when the raw mass is zero. */
  function Column(g: Grid, edges: seq<real>): (r: seq<real>)
    requires g != []
  {
    var masses := Masses(Levels(g, edges));
    if Sum(masses) > 0.0 then Scaled(masses, Sum(masses)) else masses
  }

  lemma LevelsRise(g: Grid, edges: seq<real>)
    requires Rises(g) && NonDecreasing(edges)
    ensures NonDecreasing(Levels(g, edges))
  {
    FlipRises(g);
    hide Read, SortedOn;
    forall i, j | 0 <= i < j < |edges| ensures Levels(g, edges)[i] <= Levels(g, edges)[j] {
      InvertIsRead(g, edges[i]);
      InvertIsRead(g, edges[j]);
      hide InvertQuantile;
      ReadIsMonotone(Flip(g), edges[i], edges[j]);
    }
  }

  /** A forecast column of a rising grid sums to one exactly when the price axis overlaps the grid's
      support, and is identically zero otherwise; its raw mass is the difference of the cumulative
      probabilities at the outer edges. */
  lemma ColumnSumsToOneExactlyWhen(g: Grid, edges: seq<real>)
    requires Rises(g) && NonDecreasing(edges) && |edges| >= 2
    ensures var first, last := edges[0], edges[|edges| - 1];
      && Sum(Masses(Levels(g, edges))) == InvertQuantile(g, last).value - InvertQuantile(g, first).value
      && (forall i | 0 <= i < |edges| - 1 :: Levels(g, edges)[i] <= Levels(g, edges)[i + 1])
      && (Sum(Column(g, edges)) == 1.0 <==> first < last && first < g[|g| - 1].1 && g[0].1 < last && |g| >= 2)
      && (Sum(Column(g, edges)) == 1.0 || forall x | x in Column(g, edges) :: x == 0.0)
  {
    var levels, first, last := Levels(g, edges), edges[0], edges[|edges| - 1];
    assert first <= last;
    LevelsRise(g, edges);
    OuterLevels(g, edges);
    FlipRises(g);
    hide Read, Levels, Masses, Sum, InvertQuantile;
    MassesTelescope(levels);
    MassIsPositiveWhen(g, first, last);
    ColumnTotal(g, edges);
    if Sum(Masses(levels)) <= 0.0 {
      NoMassAnywhere(levels);
    }
  }

  lemma OuterLevels(g: Grid, edges: seq<real>)
    requires Rises(g) && edges != []
    ensures var levels, first, last := Levels(g, edges), edges[0], edges[|edges| - 1];
      && levels[0] == InvertQuantile(g, first).value == Read(Flip(g), first)
      && levels[|levels| - 1] == InvertQuantile(g, last).value == Read(Flip(g), last)
  {
    InvertIsRead(g, edges[0]);
    InvertIsRead(g, edges[|edges| - 1]);
    hide InvertQuantile, Read, Flip, Rises;
  }

  lemma InvertIsRead(g: Grid, price: real)
    requires Rises(g)
    ensures InvertQuantile(g, price) == Some(Read(Flip(g), price))
  {
    assert SortedOn(First, Flip(g)) == Flip(g) by { RisingNeedsNoSort(g); }
    hide Read, SortedOn, Flip, Rises;
  }

  /** An instance: a grid from 100 at probability 0.1 to 110 at 0.9, and an axis from 200 to 201. Inversion
      stays at 0.9 and the column is all zeros. */
  lemma ColumnMissesTheAxis(g: Grid, edges: seq<real>)
    requires |g| == 2 && g[0] == (0.1, 100.0) && g[1] == (0.9, 110.0)
    requires |edges| == 2 && edges[0] == 200.0 && edges[1] == 201.0
    ensures InvertQuantile(g, 200.0) == Some(0.9) && InvertQuantile(g, 201.0) == Some(0.9)
    ensures Sum(Column(g, edges)) != 1.0 && forall x | x in Column(g, edges) :: x == 0.0
  {
    ColumnSumsToOneExactlyWhen(g, edges);
    RisingNeedsNoSort(g);
    hide Column, Sum, SortedOn;
  }

  lemma ColumnTotal(g: Grid, edges: seq<real>)
    requires g != []
    ensures var total := Sum(Masses(Levels(g, edges))); Sum(Column(g, edges)) == if total > 0.0 then 1.0 else total
  {
    hide Masses, Levels, Sum, Scaled;
    var masses := Masses(Levels(g, edges));
    if Sum(masses) > 0.0 {
      SumOfScaled(masses, Sum(masses));
      SelfRatio(Sum(masses));
    }
  }

  lemma MassIsPositiveWhen(g: Grid, first: real, last: real)
    requires Rises(g) && Rises(Flip(g)) && first <= last
    ensures Read(Flip(g), last) - Read(Flip(g), first) > 0.0 <==>
      first < last && first < g[|g| - 1].1 && g[0].1 < last && |g| >= 2
    ensures Read(Flip(g), last) >= Read(Flip(g), first)
  {
    hide Seek;
    ReadIsMonotone(Flip(g), first, last);
  }

  lemma NoMassAnywhere(levels: seq<real>)
    requires NonDecreasing(levels) && levels != [] && levels[|levels| - 1] <= levels[0]
    ensures forall x | x in Masses(levels) :: x == 0.0
    ensures Sum(Masses(levels)) == 0.0
  {
    MassesTelescope(levels);
    forall i | 0 <= i < |levels| - 1 ensures Masses(levels)[i] == 0.0 {
      assert levels[0] <= levels[i] || i == 0;
      assert levels[i + 1] <= levels[|levels| - 1] || i + 1 == |levels| - 1;
    }
  }

  // ---------------------------------------------------------------- the loops

  function Midpoint(a: real, b: real): real { (a + b) / 2.0 }

  /** Edge `i` of an axis: midway between neighbours inside, mirrored at both ends. */
  function EdgeAt(axis: seq<real>, i: nat): real
    requires axis != [] && i <= |axis|
  {
    var n := |axis|;
    if n == 1 then (if i == 0 then axis[0] - 0.5 else axis[0] + 0.5)
    else if i == 0 then axis[0] - (Midpoint(axis[0], axis[1]) - axis[0])
    else if i == n then axis[n - 1] + (axis[n - 1] - Midpoint(axis[n - 2], axis[n - 1]))
    else Midpoint(axis[i - 1], axis[i])
  }

  lemma MidpointIsInside(a: real, b: real)
    requires a < b
    ensures a < Midpoint(a, b) < b && Midpoint(a, b) - a == b - Midpoint(a, b)
  {
  }

  /** Every sample of an increasing axis lies strictly inside its own bin. */
  lemma SamplesAreInside(axis: seq<real>, i: nat)
    requires Increasing(axis) && i < |axis|
    ensures EdgeAt(axis, i) < axis[i] < EdgeAt(axis, i + 1)
  {
    hide Midpoint;
    if i > 0 { MidpointIsInside(axis[i - 1], axis[i]); }
    if i + 1 < |axis| { MidpointIsInside(axis[i], axis[i + 1]); }
  }

  /** The edges partition the axis into increasing bins. */
  lemma EdgesIncrease(axis: seq<real>, edges: seq<real>, i: nat, j: nat)
    requires Increasing(axis) && axis != [] && |edges| == |axis| + 1 && i < j < |edges|
    requires forall k | 0 <= k < |edges| :: edges[k] == EdgeAt(axis, k)
    ensures edges[i] < edges[j]
  {
    hide EdgeAt;
    SamplesAreInside(axis, i);
    SamplesAreInside(axis, j - 1);
  }

  /** The outer edges mirror the inner ones in the first and last sample; a single sample has a unit bin. */
  lemma EndsAreMirrored(axis: seq<real>)
    requires axis != []
    ensures axis[0] - EdgeAt(axis, 0) == EdgeAt(axis, 1) - axis[0]
    ensures EdgeAt(axis, |axis|) - axis[|axis| - 1] == axis[|axis| - 1] - EdgeAt(axis, |axis| - 1)
    ensures |axis| == 1 ==> EdgeAt(axis, 1) - EdgeAt(axis, 0) == 1.0
    ensures forall i | 0 < i < |axis| :: EdgeAt(axis, i) + EdgeAt(axis, i) == axis[i - 1] + axis[i]
  {
  }

  /** Bin edges of an axis. */
  method PriceEdges(axis: seq<real>) returns (edges: array<real>)
    ensures edges.Length == if axis == [] then 0 else |axis| + 1
    ensures axis != [] ==> forall i | 0 <= i <= |axis| :: edges[i] == EdgeAt(axis, i)
    ensures fresh(edges)
  {
    var n := |axis|;
    if n == 0 {
      edges := new real[0];
      return;
    }
    edges := new real[n + 1];
    if n == 1 {
      edges[0], edges[1] := axis[0] - 0.5, axis[0] + 0.5;
      return;
    }
    for i := 1 to n
      invariant forall k | 1 <= k < i :: edges[k] == Midpoint(axis[k - 1], axis[k])
    {
      edges[i] := (axis[i - 1] + axis[i]) / 2.0;
    }
    edges[0] := axis[0] - (edges[1] - axis[0]);
    edges[n] := axis[n - 1] + (axis[n - 1] - edges[n - 1]);
  }

  lemma {:induction false} MassAt(levels: seq<real>, i: nat)
    requires i + 1 < |levels|
    ensures Masses(levels)[i] == Max(0.0, levels[i + 1] - levels[i])
  {
    if i > 0 { MassAt(levels[1..], i - 1); }
  }

  /** Difference the levels into the column and add the masses up. */
  method FillMasses(g: Grid, edges: seq<real>, column: array<real>) returns (total: real)
    requires g != [] && |edges| == column.Length + 1
    modifies column
    ensures column[..] == Masses(Levels(g, edges)) && total == Sum(column[..])
  {
    hide InvertQuantile, Masses, Sum;
    ghost var levels := Levels(g, edges);
    ghost var masses := Masses(levels);
    total := 0.0;
    SumOfNothing();
    for p := 0 to column.Length
      invariant column[..p] == masses[..p] && total == Sum(masses[..p])
    {
      var lo, hi := InvertQuantile(g, edges[p]).value, InvertQuantile(g, edges[p + 1]).value;
      MassAt(levels, p);
      column[p] := Max(0.0, hi - lo);
      SumOfAppend(masses[..p], column[p]);
      assert masses[..p + 1] == masses[..p] + [masses[p]];
      total := total + column[p];
    }
    assert column[..column.Length] == column[..] && masses[..column.Length] == masses;
  }

  lemma SumOfNothing()
    ensures Sum([]) == 0.0
  {
  }

  /** Fill one column in place, then normalise it. */
  method FillColumn(g: Grid, edges: seq<real>, column: array<real>)
    requires g != [] && |edges| == column.Length + 1
    modifies column
    ensures column[..] == Column(g, edges)
  {
    hide Levels, Masses, Sum;
    var total := FillMasses(g, edges, column);
    ghost var masses := column[..];
    if total > 0.0 {
      for p := 0 to column.Length
        invariant column[..p] == Scaled(masses, total)[..p] && column[p..] == masses[p..]
      {
        assert column[p] == masses[p];
        column[p] := column[p] / total;
      }
    }
  }

  /** Index of the first greatest entry. */
  method Mode(column: seq<real>) returns (best: nat)
    requires column != []
    ensures best < |column| && (forall p | 0 <= p < |column| :: column[p] <= column[best])
    ensures forall p | 0 <= p < best :: column[p] < column[best]
  {
    best := 0;
    for p := 1 to |column|
      invariant best < p && (forall q | 0 <= q < p :: column[q] <= column[best])
      invariant (forall q | 0 <= q < best :: column[q] < column[best])
    {
      if column[p] > column[best] {
        best := p;
      }
    }
  }

  /** What column `t` of the field is: zeros for the past, a forecast column ahead of it. */
  ghost predicate IsColumn(column: seq<real>, horizons: seq<Horizon>, minutes: real, spot: real, edges: seq<real>,
      root: real -> real) {
    if minutes <= 0.0 then forall x | x in column :: x == 0.0
    else
      var g := QuantilesAtMinutes(horizons, minutes, spot, root);
      g.Some? && g.value != [] && column == Column(g.value, edges)
  }

  /** A moment ahead for which there is no grid. */
  predicate GridIsMissing(horizons: seq<Horizon>, minutes: real, spot: real, root: real -> real) {
    minutes > 0.0
    && var g := QuantilesAtMinutes(horizons, minutes, spot, root); g.None? || g.value == []
  }

  lemma {:induction false} BracketedLength(taus: Grid, track: seq<Horizon>, at: real, spot: real, root: real -> real)
    requires track != [] && forall h | h in track :: |h.grid| == |taus|
    ensures |Bracketed(taus, track, at, spot, root)| == |taus|
  {
    hide Slide, TimeWeight;
    assert track[0] in track;
    if |track| > 1 && !(track[0].minutes <= at <= track[1].minutes) {
      BracketedLength(taus, track[1..], at, spot, root);
    }
  }

  /** Over horizons of common quantile levels a grid is missing exactly ahead of now when there are no horizons
      or no levels. */
  lemma GridIsMissingExactlyWhen(horizons: seq<Horizon>, minutes: real, spot: real, root: real -> real, taus: Grid)
    requires forall h | h in horizons :: h.minutes > 0.0 && SameTaus(taus, h.grid)
    ensures GridIsMissing(horizons, minutes, spot, root) <==> minutes > 0.0 && (horizons == [] || taus == [])
  {
    if horizons != [] {
      TrackAscends(horizons, spot, taus);
      var sorted, track := SortedOn(MinutesOf, horizons), Track(horizons, spot);
      assert track[|track| - 1] == sorted[|sorted| - 1] && track[|track| - 1] in track && track[1] in track;
      hide SortedOn, Bracketed;
      BracketedLength(sorted[0].grid, track, minutes, spot, root);
    }
  }

  /** A forecast column over rising horizons sums to one exactly when the outer edges overlap the
      prices its grid covers. */
  lemma ForecastColumnsSumToOneExactlyWhen(column: seq<real>, horizons: seq<Horizon>, minutes: real, spot: real,
      edges: seq<real>, root: real -> real, taus: Grid)
    requires horizons != [] && minutes > 0.0 && Scale(root)
    requires forall h | h in horizons :: h.minutes > 0.0 && Rises(h.grid) && SameTaus(taus, h.grid)
    requires |edges| >= 2 && NonDecreasing(edges) && edges[0] < edges[|edges| - 1] && |taus| >= 2
    requires IsColumn(column, horizons, minutes, spot, edges, root)
    ensures var g := QuantilesAtMinutes(horizons, minutes, spot, root);
      && g.Some? && Rises(g.value)
      && (Sum(column) == 1.0 <==> edges[0] < g.value[|g.value| - 1].1 && g.value[0].1 < edges[|edges| - 1])
  {
    hide QuantilesAtMinutes, Column, Masses, Levels, Sum;
    QuantilesRiseAtEveryMoment(horizons, minutes, spot, root, taus);
    ColumnSumsToOneExactlyWhen(QuantilesAtMinutes(horizons, minutes, spot, root).value, edges);
  }

  /** An instance of a forecast column that does not sum to one, for the only horizon of a forecast. */
  lemma ForecastMissesTheAxis(column: seq<real>, horizon: Horizon, spot: real, edges: seq<real>, root: real -> real)
    requires horizon.minutes == 60.0 && |horizon.grid| == 2
    requires horizon.grid[0] == (0.1, 100.0) && horizon.grid[1] == (0.9, 110.0)
    requires |edges| == 2 && edges[0] == 200.0 && edges[1] == 201.0
    requires IsColumn(column, [horizon], 60.0, spot, edges, root)
    ensures Sum(column) != 1.0
  {
    assert SortedOn(MinutesOf, [horizon]) == [horizon] by { SortedStays(MinutesOf, [horizon]); }
    hide SortedOn, Column, Bracketed, Anchor;
    ColumnMissesTheAxis(horizon.grid, edges);
  }

  /** The whole field; none when a grid is missing. */
  method BuildDensitySurface(horizons: seq<Horizon>, minutesAxis: seq<real>, axis: seq<real>, spot: real,
      root: real -> real)
    returns (density: Option<seq<seq<real>>>, edges: seq<real>)
    ensures |edges| == if axis == [] then 0 else |axis| + 1
    ensures axis != [] ==> forall i | 0 <= i <= |axis| :: edges[i] == EdgeAt(axis, i)
    ensures density.Some? ==> |density.value| == |minutesAxis|
    ensures density.Some? ==> forall t | 0 <= t < |minutesAxis| :: |density.value[t]| == |axis|
    ensures density.Some? ==>
      forall t | 0 <= t < |minutesAxis| :: IsColumn(density.value[t], horizons, minutesAxis[t], spot, edges, root)
    ensures density.None? ==> exists t :: 0 <= t < |minutesAxis| && GridIsMissing(horizons, minutesAxis[t], spot, root)
  {
    hide QuantilesAtMinutes, Column, EdgeAt;
    var edgeArray := PriceEdges(axis);
    edges := edgeArray[..];
    var columns: seq<seq<real>> := [];
    for t := 0 to |minutesAxis|
      invariant |columns| == t
      invariant forall k | 0 <= k < t ::
        |columns[k]| == |axis| && IsColumn(columns[k], horizons, minutesAxis[k], spot, edges, root)
    {
      var column := new real[|axis|](_ => 0.0);
      if minutesAxis[t] > 0.0 {
        var g := QuantilesAtMinutes(horizons, minutesAxis[t], spot, root);
        if g.None? || g.value == [] {
          return None, edges;
        }
        if axis != [] {
          FillColumn(g.value, edges, column);
        } else {
          EmptyColumn(g.value, edges);
        }
      }
      columns := columns + [column[..]];
    }
    density := Some(columns);
  }

  lemma EmptyColumn(g: Grid, edges: seq<real>)
    requires g != [] && edges == []
    ensures Column(g, edges) == []
  {
  }
}
