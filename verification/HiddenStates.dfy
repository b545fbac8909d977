/** The hidden-state filter: the transition matrix it is built on, the forward update, and the
    proof that the normalised recursion is exactly Bayes' rule over all hidden histories. */
module HiddenStates {
  import opened Options
  import opened Vectors

  /** The eleven market states, by index. */
  const STATES := 11

  type State = s: nat | s < STATES
  type Belief = b: seq<real> | |b| == STATES witness seq(STATES, _ => 0.0)
  const NOTHING: Belief := seq(STATES, _ => 0.0)
  type Matrix = m: seq<Belief> | |m| == STATES witness seq(STATES, _ => NOTHING)

  ghost predicate Positive(b: seq<real>) { forall i | 0 <= i < |b| :: b[i] > 0.0 }

  ghost predicate NonNegative(b: seq<real>) { forall i | 0 <= i < |b| :: b[i] >= 0.0 }

  ghost predicate Distribution(b: seq<real>) { NonNegative(b) && Sum(b) == 1.0 }

  ghost predicate RowStochastic(m: Matrix) { forall i | 0 <= i < STATES :: Distribution(m[i]) }

  /** Row-stochastic with no transition of probability zero. */
  ghost predicate Stochastic(m: Matrix) { forall i | 0 <= i < STATES :: Positive(m[i]) && Sum(m[i]) == 1.0 }

  // ---------------------------------------------------------------- the forward recursion

  function Column(m: Matrix, j: State): Belief { seq(STATES, i requires 0 <= i < STATES => m[i][j]) }

  /** `belief @ transition`. */
  function Predict(b: Belief, m: Matrix): Belief {
    seq(STATES, j requires 0 <= j < STATES => Dot(b, Column(m, j)))
  }

  function Times(a: Belief, b: Belief): Belief { seq(STATES, j requires 0 <= j < STATES => a[j] * b[j]) }

  function Over(a: Belief, z: real): Belief
    requires z != 0.0
  {
    seq(STATES, j requires 0 <= j < STATES => a[j] / z)
  }

  /** One update: predict, weigh by the likelihood, normalise; keep the prediction when the
      weighed total is not positive. */
  function Updated(b: Belief, m: Matrix, likelihood: Belief): Belief {
    var predicted := Predict(b, m);
    var posterior := Times(predicted, likelihood);
    if Sum(posterior) > 0.0 then Over(posterior, Sum(posterior))
    else if Sum(predicted) != 0.0 then Over(predicted, Sum(predicted))
    else predicted
  }

  /** The belief after a whole sequence of likelihood vectors. */
  function Filtered(prior: Belief, m: Matrix, ls: seq<Belief>): Belief {
    if ls == [] then prior else Updated(Filtered(prior, m, ls[..|ls| - 1]), m, ls[|ls| - 1])
  }

  /** The same recursion without normalising. */
  function Forward(prior: Belief, m: Matrix, ls: seq<Belief>): Belief {
    if ls == [] then prior else Times(Predict(Forward(prior, m, ls[..|ls| - 1]), m), ls[|ls| - 1])
  }

  // ---------------------------------------------------------------- all hidden histories

  type Path = seq<State>

  function Extensions(p: Path, k: nat): seq<Path>
    requires k <= STATES
  {
    if k == 0 then [] else Extensions(p, k - 1) + [p + [k - 1]]
  }

  function ExtendAll(ps: seq<Path>): seq<Path> {
    if ps == [] then [] else Extensions(ps[0], STATES) + ExtendAll(ps[1..])
  }

  /** Every state sequence of length `t + 1`. */
  function Paths(t: nat): seq<Path> {
    if t == 0 then Extensions([], STATES) else ExtendAll(Paths(t - 1))
  }

  /** Prior times transitions times likelihoods along one hidden history. */
  function Weight(p: Path, prior: Belief, m: Matrix, ls: seq<Belief>): real
    requires |p| == |ls| + 1
  {
    if ls == [] then prior[p[0]]
    else
      var t := |ls|;
      Weight(p[..t], prior, m, ls[..t - 1]) * (m[p[t - 1]][p[t]] * ls[t - 1][p[t]])
  }

  /** Total weight of the listed histories that end in state `j`. */
  function Mass(ps: seq<Path>, w: Path -> real, j: State): real {
    if ps == [] then 0.0
    else (if ps[0] != [] && ps[0][|ps[0]| - 1] == j then w(ps[0]) else 0.0) + Mass(ps[1..], w, j)
  }

  function WeightFn(prior: Belief, m: Matrix, ls: seq<Belief>): Path -> real {
    (p: Path) => if |p| == |ls| + 1 then Weight(p, prior, m, ls) else 0.0
  }

  /** Joint mass of the observations and of being in state `j` now, summed over every history. */
  function JointMass(prior: Belief, m: Matrix, ls: seq<Belief>, j: State): real {
    Mass(Paths(|ls|), WeightFn(prior, m, ls), j)
  }

  function JointMasses(prior: Belief, m: Matrix, ls: seq<Belief>): Belief {
    seq(STATES, j requires 0 <= j < STATES => JointMass(prior, m, ls, j))
  }

  // ---------------------------------------------------------------- the list is complete and repeats nothing

  lemma {:induction false} ExtensionsAre(p: Path, k: nat, q: Path)
    requires k <= STATES
    ensures multiset(Extensions(p, k))[q] == if |q| == |p| + 1 && q[..|p|] == p && q[|p|] < k then 1 else 0
  {
    if k > 0 {
      ExtensionsAre(p, k - 1, q);
      IsExtension(p, k - 1, q);
    }
  }

  lemma IsExtension(p: Path, k: State, q: Path)
    ensures q == p + [k] <==> |q| == |p| + 1 && q[..|p|] == p && q[|p|] == k
  {
    if |q| == |p| + 1 && q[..|p|] == p && q[|p|] == k {
      assert q == q[..|p|] + [q[|p|]];
    }
  }

  lemma {:induction false} ExtendAllCounts(ps: seq<Path>, q: Path)
    requires q != []
    ensures multiset(ExtendAll(ps))[q] == multiset(ps)[q[..|q| - 1]]
  {
    hide Extensions;
    if ps != [] {
      ExtensionsAre(ps[0], STATES, q);
      ExtendAllCounts(ps[1..], q);
      assert ps == [ps[0]] + ps[1..];
      assert ps[0] == q[..|q| - 1] <==> |q| == |ps[0]| + 1 && q[..|ps[0]|] == ps[0];
    }
  }

  lemma HistoriesOfOne(q: Path)
    ensures multiset(Paths(0))[q] == if |q| == 1 then 1 else 0
  {
    ExtensionsAre([], STATES, q);
    if |q| == 1 { assert q[..0] == []; }
  }

  lemma HistoriesOfMore(t: nat, q: Path)
    requires t > 0 && q != []
    ensures multiset(Paths(t))[q] == multiset(Paths(t - 1))[q[..|q| - 1]]
  {
    hide Extensions, ExtendAll;
    ExtendAllCounts(Paths(t - 1), q);
  }

  /** Every history of the right length is listed exactly once, and nothing else is. */
  lemma {:induction false} PathsAreAllHistories(t: nat, q: Path)
    ensures multiset(Paths(t))[q] == if |q| == t + 1 then 1 else 0
  {
    hide Paths;
    if q == [] {
      EmptyPathIsNotListed(t);
    } else if t == 0 {
      HistoriesOfOne(q);
    } else {
      HistoriesOfMore(t, q);
      PathsAreAllHistories(t - 1, q[..|q| - 1]);
    }
  }

  lemma {:induction false} EmptyPathIsNotExtended(ps: seq<Path>)
    ensures [] !in multiset(ExtendAll(ps))
  {
    if ps != [] {
      ExtensionsAre(ps[0], STATES, []);
      EmptyPathIsNotExtended(ps[1..]);
    }
  }

  lemma EmptyPathIsNotListed(t: nat)
    ensures multiset(Paths(t))[[]] == 0
  {
    if t == 0 {
      ExtensionsAre([], STATES, []);
    } else {
      EmptyPathIsNotExtended(Paths(t - 1));
    }
  }

  // ---------------------------------------------------------------- summing over histories is the recursion

  function SumOf(ps: seq<Path>, f: Path -> real): real {
    if ps == [] then 0.0 else f(ps[0]) + SumOf(ps[1..], f)
  }

  lemma {:induction false} MassConcat(a: seq<Path>, b: seq<Path>, w: Path -> real, j: State)
    ensures Mass(a + b, w, j) == Mass(a, w, j) + Mass(b, w, j)
  {
    if a == [] {
      assert a + b == b;
    } else {
      MassConcat(a[1..], b, w, j);
      assert (a + b)[1..] == a[1..] + b;
    }
  }

  lemma {:induction false} MassOfExtensions(p: Path, k: nat, w: Path -> real, j: State)
    requires k <= STATES
    ensures Mass(Extensions(p, k), w, j) == if j < k then w(p + [j]) else 0.0
  {
    if k > 0 {
      MassOfExtensions(p, k - 1, w, j);
      var q: Path := p + [k - 1];
      MassConcat(Extensions(p, k - 1), [q], w, j);
      assert |[q][1..]| == 0;
      assert q[|q| - 1] == k - 1;
    }
  }

  /** Extending every history by one state keeps, for each new state, one term per history. */
  lemma {:induction false} MassOfExtendAll(ps: seq<Path>, w: Path -> real, j: State)
    ensures Mass(ExtendAll(ps), w, j) == SumOf(ps, p => w(p + [j]))
  {
    if ps != [] {
      MassOfExtendAll(ps[1..], w, j);
      MassOfExtensions(ps[0], STATES, w, j);
      MassConcat(Extensions(ps[0], STATES), ExtendAll(ps[1..]), w, j);
    }
  }

  function Masses(ps: seq<Path>, w: Path -> real): Belief {
    seq(STATES, i requires 0 <= i < STATES => Mass(ps, w, i))
  }

  lemma {:induction false} DotBump(v: seq<real>, i: nat, x: real, c: seq<real>)
    requires |v| == |c| && i < |v|
    ensures Dot(v[i := v[i] + x], c) == Dot(v, c) + Product(x, c[i])
  {
    if i == 0 {
      assert v[0 := v[0] + x][1..] == v[1..];
    } else {
      DotBump(v[1..], i - 1, x, c[1..]);
      assert v[i := v[i] + x][1..] == v[1..][i - 1 := v[1..][i - 1] + x];
    }
  }

  lemma {:induction false} DotZero(v: seq<real>, c: seq<real>)
    requires |v| == |c| && forall i | 0 <= i < |v| :: v[i] == 0.0
    ensures Dot(v, c) == 0.0
  {
    if v != [] {
      DotZero(v[1..], c[1..]);
    }
  }

  /** Grouping histories by their last state. */
  lemma {:induction false} GroupByLast(ps: seq<Path>, w: Path -> real, c: Belief, f: Path -> real)
    requires forall p | p in ps :: p != [] && f(p) == Product(w(p), c[p[|p| - 1]])
    ensures SumOf(ps, f) == Dot(Masses(ps, w), c)
  {
    hide Dot, Product;
    if ps == [] {
      DotZero(Masses(ps, w), c);
    } else {
      hide Masses;
      assert ps[0] in ps && forall p | p in ps[1..] :: p in ps;
      GroupByLast(ps[1..], w, c, f);
      var i := ps[0][|ps[0]| - 1];
      var rest := Masses(ps[1..], w);
      DotBump(rest, i, w(ps[0]), c);
      MassesOfMore(ps, w);
    }
  }

  lemma MassesOfMore(ps: seq<Path>, w: Path -> real)
    requires ps != [] && ps[0] != []
    ensures var i, rest := ps[0][|ps[0]| - 1], Masses(ps[1..], w); Masses(ps, w) == rest[i := rest[i] + w(ps[0])]
  {
  }

  lemma {:induction false} DotScaled(v: seq<real>, a: seq<real>, b: seq<real>, z: real)
    requires |v| == |a| == |b| && forall i | 0 <= i < |v| :: b[i] == a[i] * z
    ensures Dot(v, b) == Dot(v, a) * z
  {
    if v != [] {
      DotScaled(v[1..], a[1..], b[1..], z);
      assert v[0] * (a[0] * z) == (v[0] * a[0]) * z;
      assert (v[0] * a[0]) * z + Dot(v[1..], a[1..]) * z == (v[0] * a[0] + Dot(v[1..], a[1..])) * z;
    }
  }

  lemma PathLength(t: nat, p: Path)
    requires p in Paths(t)
    ensures |p| == t + 1
  {
    PathsAreAllHistories(t, p);
    assert p in multiset(Paths(t));
  }

  lemma ExtendedWeight(p: Path, prior: Belief, m: Matrix, ls: seq<Belief>, j: State)
    requires ls != [] && |p| == |ls|
    ensures WeightFn(prior, m, ls)(p + [j])
         == WeightFn(prior, m, ls[..|ls| - 1])(p) * (m[p[|p| - 1]][j] * ls[|ls| - 1][j])
  {
    assert (p + [j])[..|ls|] == p;
  }

  lemma BaseMass(prior: Belief, m: Matrix, j: State)
    ensures JointMass(prior, m, [], j) == prior[j]
  {
    MassOfExtensions([], STATES, WeightFn(prior, m, []), j);
    var empty: Path := [];
    assert empty + [j] == [j];
  }

  /** One more observation: every history is extended, and the sum regroups by its last state. */
  lemma JointMassStep(prior: Belief, m: Matrix, ls: seq<Belief>, j: State)
    requires ls != []
    ensures var front, l := ls[..|ls| - 1], ls[|ls| - 1];
      JointMass(prior, m, ls, j) == Dot(JointMasses(prior, m, front), Column(m, j)) * l[j]
  {
    hide Dot, Mass, SumOf, WeightFn, ExtendAll, Extensions;
    var t := |ls|;
    var front, l := ls[..t - 1], ls[t - 1];
    var ps, w, v := Paths(t - 1), WeightFn(prior, m, ls), WeightFn(prior, m, front);
    var c: Belief := seq(STATES, i requires 0 <= i < STATES => m[i][j] * l[j]);
    var f := (p: Path) => w(p + [j]);
    MassOfExtendAll(ps, w, j);
    assert SumOf(ps, p => w(p + [j])) == SumOf(ps, f);
    forall p | p in ps ensures p != [] && f(p) == v(p) * c[p[|p| - 1]] {
      PathLength(t - 1, p);
      ExtendedWeight(p, prior, m, ls, j);
    }
    GroupByLast(ps, v, c, f);
    DotScaled(Masses(ps, v), Column(m, j), c, l[j]);
    assert Masses(ps, v) == JointMasses(prior, m, front);
  }

  /** The sum over all hidden histories obeys the forward recursion. */
  lemma {:induction false} JointMassIsForward(prior: Belief, m: Matrix, ls: seq<Belief>, j: State)
    ensures JointMass(prior, m, ls, j) == Forward(prior, m, ls)[j]
    decreases |ls|
  {
    hide Dot, JointMass;
    if ls == [] {
      BaseMass(prior, m, j);
    } else {
      var front := ls[..|ls| - 1];
      JointMassStep(prior, m, ls, j);
      forall i: State ensures JointMass(prior, m, front, i) == Forward(prior, m, front)[i] {
        JointMassIsForward(prior, m, front, i);
      }
      assert JointMasses(prior, m, front) == Forward(prior, m, front);
    }
  }

  // ---------------------------------------------------------------- normalising step by step

  /** `a` is `b` scaled up by `z`. */
  ghost predicate Scaled(b: Belief, z: real, a: Belief) {
    forall i | 0 <= i < STATES :: a[i] == b[i] * z
  }

  lemma {:induction false} SumScaled(a: seq<real>, b: seq<real>, z: real)
    requires |a| == |b| && forall i | 0 <= i < |a| :: a[i] == b[i] * z
    ensures Sum(a) == Sum(b) * z
  {
    if a != [] {
      SumScaled(a[1..], b[1..], z);
      assert b[0] * z + Sum(b[1..]) * z == (b[0] + Sum(b[1..])) * z;
    }
  }

  lemma {:induction false} DotCommutes(a: seq<real>, b: seq<real>)
    requires |a| == |b|
    ensures Dot(a, b) == Dot(b, a)
  {
    if a != [] {
      DotCommutes(a[1..], b[1..]);
    }
  }

  lemma {:induction false} NonNegativeSum(v: seq<real>)
    requires NonNegative(v)
    ensures Sum(v) >= 0.0
  {
    if v != [] { NonNegativeSum(v[1..]); }
  }

  lemma {:induction false} SumAtLeast(v: seq<real>, k: nat)
    requires k < |v| && NonNegative(v)
    ensures Sum(v) >= v[k]
  {
    if k == 0 {
      NonNegativeSum(v[1..]);
    } else {
      SumAtLeast(v[1..], k - 1);
    }
  }

  lemma {:induction false} FindPositive(v: seq<real>) returns (k: nat)
    requires NonNegative(v) && Sum(v) > 0.0
    ensures k < |v| && v[k] > 0.0
  {
    if v[0] > 0.0 {
      k := 0;
    } else {
      k := FindPositive(v[1..]);
      k := k + 1;
    }
  }

  lemma {:induction false} NonNegativeDot(a: seq<real>, b: seq<real>)
    requires |a| == |b| && NonNegative(a) && NonNegative(b)
    ensures Dot(a, b) >= 0.0
  {
    if a != [] {
      NonNegativeDot(a[1..], b[1..]);
      ProductNonNegative(a[0], b[0]);
    }
  }

  lemma DotHead(a: seq<real>, b: seq<real>)
    requires |a| == |b| && a != []
    ensures Dot(a, b) == Product(a[0], b[0]) + Dot(a[1..], b[1..])
  {
  }

  lemma {:induction false} PositiveDot(a: seq<real>, b: seq<real>, k: nat)
    requires |a| == |b| && NonNegative(a) && NonNegative(b) && k < |a| && a[k] > 0.0 && b[k] > 0.0
    ensures Dot(a, b) > 0.0
  {
    hide Dot, Product;
    DotHead(a, b);
    ProductSigns(a[0], b[0]);
    if k == 0 {
      NonNegativeDot(a[1..], b[1..]);
    } else {
      PositiveDot(a[1..], b[1..], k - 1);
    }
  }

  lemma PredictIsNonNegative(b: Belief, m: Matrix, j: State)
    requires Distribution(b) && RowStochastic(m)
    ensures Predict(b, m)[j] >= 0.0
    ensures (exists i: State :: b[i] > 0.0 && m[i][j] > 0.0) ==> Predict(b, m)[j] > 0.0
  {
    hide Dot, Sum;
    forall i: State ensures Column(m, j)[i] >= 0.0 { assert NonNegative(m[i]); }
    NonNegativeDot(b, Column(m, j));
    if i: State :| b[i] > 0.0 && m[i][j] > 0.0 {
      PositiveDot(b, Column(m, j), i);
    }
  }

  /** From a distribution, a row-stochastic matrix and a positive likelihood the weighed total is
      positive: the fallback branch is never taken. */
  lemma FallbackIsUnreachable(b: Belief, m: Matrix, likelihood: Belief)
    requires Distribution(b) && RowStochastic(m) && Positive(likelihood)
    ensures NonNegative(Predict(b, m)) && NonNegative(Times(Predict(b, m), likelihood))
    ensures Sum(Times(Predict(b, m), likelihood)) > 0.0
  {
    hide Predict, Sum;
    var posterior := Times(Predict(b, m), likelihood);
    forall j: State ensures Predict(b, m)[j] >= 0.0 && posterior[j] >= 0.0 {
      PredictIsNonNegative(b, m, j);
      ProductNonNegative(Predict(b, m)[j], likelihood[j]);
    }
    var i := FindPositive(b);
    assert Distribution(m[i]);
    var j := FindPositive(m[i]);
    PredictIsNonNegative(b, m, j);
    ProductPositive(Predict(b, m)[j], likelihood[j]);
    SumAtLeast(posterior, j);
  }

  lemma QuotientScales(p: real, s: real, z: real)
    requires s != 0.0
    ensures (p / s) * (s * z) == p * z
  {
    assert (p / s) * s == p;
  }

  lemma DividedSum(a: Belief, z: real)
    requires z > 0.0 && Sum(a) == z
    ensures Sum(Over(a, z)) == 1.0
  {
    hide Sum;
    forall i | 0 <= i < STATES ensures a[i] == Over(a, z)[i] * z {
      assert (a[i] / z) * z == a[i];
    }
    SumScaled(a, Over(a, z), z);
    CancelFactor(Sum(Over(a, z)), z);
  }

  lemma CancelFactor(x: real, z: real)
    requires z > 0.0 && z == x * z
    ensures x == 1.0
  {
    assert (x - 1.0) * z == 0.0;
  }

  lemma QuotientSigns(a: real, z: real)
    requires a >= 0.0 && z > 0.0
    ensures a / z >= 0.0 && (a > 0.0 ==> a / z > 0.0) && (a == 0.0 ==> a / z == 0.0)
  {
    if a > 0.0 { var _ := PositiveQuotient(a, z); }
  }

  lemma OverIsNonNegative(a: Belief, z: real)
    requires NonNegative(a) && z > 0.0
    ensures NonNegative(Over(a, z)) && (Positive(a) ==> Positive(Over(a, z)))
  {
    forall i | 0 <= i < STATES ensures Over(a, z)[i] >= 0.0 && (a[i] > 0.0 ==> Over(a, z)[i] > 0.0) {
      QuotientSigns(a[i], z);
    }
  }

  /** One update keeps the belief a distribution. */
  lemma UpdateKeepsDistribution(b: Belief, m: Matrix, likelihood: Belief)
    requires Distribution(b) && RowStochastic(m) && Positive(likelihood)
    ensures Distribution(Updated(b, m, likelihood))
  {
    hide Sum, Predict, Times;
    FallbackIsUnreachable(b, m, likelihood);
    var posterior := Times(Predict(b, m), likelihood);
    DividedSum(posterior, Sum(posterior));
    OverIsNonNegative(posterior, Sum(posterior));
  }

  lemma StochasticIsRowStochastic(m: Matrix)
    requires Stochastic(m)
    ensures RowStochastic(m)
  {
    hide Sum;
    forall i | 0 <= i < STATES ensures Distribution(m[i]) {
      assert Positive(m[i]);
    }
  }

  /** When no transition has probability zero every updated belief is strictly positive, whatever it was. */
  lemma UpdateIsPositive(b: Belief, m: Matrix, likelihood: Belief)
    requires Distribution(b) && Stochastic(m) && Positive(likelihood)
    ensures Positive(Updated(b, m, likelihood))
  {
    hide Sum, Predict;
    StochasticIsRowStochastic(m);
    FallbackIsUnreachable(b, m, likelihood);
    var posterior := Times(Predict(b, m), likelihood);
    var i := FindPositive(b);
    forall j: State ensures posterior[j] > 0.0 {
      assert Positive(m[i]);
      PredictIsNonNegative(b, m, j);
      ProductPositive(Predict(b, m)[j], likelihood[j]);
    }
    OverIsNonNegative(posterior, Sum(posterior));
  }

  /** ... and scales the unnormalised recursion. */
  lemma UpdateScales(b: Belief, z: real, a: Belief, m: Matrix, likelihood: Belief)
    requires Distribution(b) && RowStochastic(m) && Positive(likelihood) && Scaled(b, z, a) && z > 0.0
    ensures var next := Times(Predict(a, m), likelihood);
      Scaled(Updated(b, m, likelihood), Sum(next), next) && Sum(next) > 0.0
  {
    hide Dot, Sum;
    var p, q := Predict(b, m), Predict(a, m);
    forall j: State ensures q[j] == p[j] * z {
      DotCommutes(a, Column(m, j));
      DotCommutes(b, Column(m, j));
      DotScaled(Column(m, j), b, a, z);
    }
    FallbackIsUnreachable(b, m, likelihood);
    var posterior, next := Times(p, likelihood), Times(q, likelihood);
    forall j: State ensures next[j] == posterior[j] * z {
      Regroup(p[j], z, likelihood[j]);
    }
    SumScaled(next, posterior, z);
    ProductPositive(Sum(posterior), z);
    forall j: State ensures next[j] == Updated(b, m, likelihood)[j] * Sum(next) {
      QuotientScales(posterior[j], Sum(posterior), z);
    }
  }

  lemma Regroup(p: real, z: real, l: real)
    ensures (p * z) * l == (p * l) * z
  {
  }

  lemma {:induction false} FilteredScalesForward(prior: Belief, m: Matrix, ls: seq<Belief>) returns (z: real)
    requires Distribution(prior) && RowStochastic(m) && forall l | l in ls :: Positive(l)
    ensures z > 0.0 && Scaled(Filtered(prior, m, ls), z, Forward(prior, m, ls))
    ensures Distribution(Filtered(prior, m, ls))
    ensures z == Sum(Forward(prior, m, ls))
    decreases |ls|
  {
    hide Updated, Sum;
    if ls == [] {
      z := 1.0;
    } else {
      var front, l := ls[..|ls| - 1], ls[|ls| - 1];
      var y := FilteredScalesForward(prior, m, front);
      UpdateScales(Filtered(prior, m, front), y, Forward(prior, m, front), m, l);
      UpdateKeepsDistribution(Filtered(prior, m, front), m, l);
      z := Sum(Forward(prior, m, ls));
    }
  }

  /** After any sequence of observations the filter's belief is the normalised sum, over all
      hidden histories, of prior times transitions times likelihoods. */
  lemma FilterIsBayes(prior: Belief, m: Matrix, ls: seq<Belief>, j: State)
    requires Distribution(prior) && RowStochastic(m) && forall l | l in ls :: Positive(l)
    ensures Sum(JointMasses(prior, m, ls)) > 0.0
    ensures Filtered(prior, m, ls)[j] == JointMass(prior, m, ls, j) / Sum(JointMasses(prior, m, ls))
  {
    hide JointMass, Filtered, Forward, Sum;
    var z := FilteredScalesForward(prior, m, ls);
    forall i: State ensures JointMass(prior, m, ls, i) == Forward(prior, m, ls)[i] {
      JointMassIsForward(prior, m, ls, i);
    }
    assert JointMasses(prior, m, ls) == Forward(prior, m, ls);
    DivideBack(Filtered(prior, m, ls)[j], z);
  }

  lemma DivideBack(b: real, z: real)
    requires z > 0.0
    ensures (b * z) / z == b
  {
    var q := (b * z) / z;
    assert q * z == b * z;
    assert (q - b) * z == 0.0;
  }

  // ---------------------------------------------------------------- the transition matrix

  const DEFAULT_STAY := 0.85

  function Clip(x: real, lo: real, hi: real): real { Min(Max(x, lo), hi) }

  function StayOf(persistence: map<State, real>, i: State): (r: real)
    ensures 0.01 <= r <= 0.99
  {
    Clip(if i in persistence then persistence[i] else DEFAULT_STAY, 0.01, 0.99)
  }

  function OtherThan(states: seq<State>, i: State): (r: seq<State>)
    ensures forall s: State :: s in r <==> s in states && s != i
  {
    if states == [] then [] else (if states[0] != i then [states[0]] else []) + OtherThan(states[1..], i)
  }

  function Adjacent(neighbours: map<State, seq<State>>, i: State): (r: seq<State>)
    ensures i !in r
  {
    if i in neighbours then OtherThan(neighbours[i], i) else []
  }

  /** States below `k` that are neither `i` nor adjacent to it. */
  function Others(neighbours: map<State, seq<State>>, i: State, k: nat): (r: seq<State>)
    requires k <= STATES
    ensures forall s: State :: s in r <==> s < k && s != i && s !in Adjacent(neighbours, i)
  {
    if k == 0 then []
    else Others(neighbours, i, k - 1)
         + if k - 1 != i && (k - 1) !in Adjacent(neighbours, i) then [k - 1] else []
  }

  /** How one row spends its probability: on staying, on each adjacent state, on each other state.
      With no other state the leftover spills onto the first adjacent one. */
  datatype Plan = Plan(stay: real, adjacent: seq<State>, others: seq<State>, leftover: real, perAdjacent: real,
      perOther: real) {
    function Entry(i: State, j: State): real {
      if j == i then stay
      else if j in adjacent then perAdjacent + if others == [] && j == adjacent[0] then leftover else 0.0
      else if j in others then perOther
      else 0.0
    }
  }

  function Portion(x: real, share: real): real { x * share }

  function Each(total: real, n: nat): real
    requires n > 0
  {
    total / n as real
  }

  function RowPlan(persistence: map<State, real>, neighbours: map<State, seq<State>>, share: real, i: State): Plan {
    var remaining := 1.0 - StayOf(persistence, i);
    var adjacent, others := Adjacent(neighbours, i), Others(neighbours, i, STATES);
    var leftover := if adjacent != [] then Portion(remaining, 1.0 - share) else remaining;
    Plan(StayOf(persistence, i), adjacent, others, leftover,
         if adjacent != [] then Each(Portion(remaining, share), |adjacent|) else 0.0,
         if others != [] then Each(leftover, |others|) else 0.0)
  }

  /** Unnormalised weight of moving from `i` to `j`. */
  function RawEntry(persistence: map<State, real>, neighbours: map<State, seq<State>>, share: real, i: State,
      j: State): real {
    RowPlan(persistence, neighbours, share, i).Entry(i, j)
  }

  function RawRow(persistence: map<State, real>, neighbours: map<State, seq<State>>, share: real, i: State): Belief {
    seq(STATES, j requires 0 <= j < STATES => RawEntry(persistence, neighbours, share, i, j))
  }

  lemma NonNegativeQuotient(a: real, n: nat)
    requires a >= 0.0 && n > 0
    ensures Each(a, n) >= 0.0 && (a > 0.0 <==> Each(a, n) > 0.0)
  {
    QuotientSigns(a, n as real);
  }

  lemma PortionPositive(x: real, share: real)
    requires x > 0.0 && share >= 0.0
    ensures Portion(x, share) >= 0.0 && (share > 0.0 ==> Portion(x, share) > 0.0)
  {
    if share > 0.0 { ProductPositive(x, share); }
  }

  lemma ShareOfRemainder(remaining: real, share: real)
    requires remaining > 0.0 && 0.0 <= share <= 1.0
    ensures Portion(remaining, share) >= 0.0 && Portion(remaining, 1.0 - share) >= 0.0
    ensures share > 0.0 <==> Portion(remaining, share) > 0.0
    ensures share < 1.0 <==> Portion(remaining, 1.0 - share) > 0.0
  {
    PortionOfNothing(remaining);
    hide Portion;
    PortionPositive(remaining, share);
    PortionPositive(remaining, 1.0 - share);
  }

  lemma PortionOfNothing(x: real)
    ensures Portion(x, 0.0) == 0.0
  {
  }

  lemma PlanSigns(persistence: map<State, real>, neighbours: map<State, seq<State>>, share: real, i: State)
    requires 0.0 <= share <= 1.0
    ensures var p := RowPlan(persistence, neighbours, share, i);
      && p.stay >= 0.01 && p.leftover >= 0.0 && p.perAdjacent >= 0.0 && p.perOther >= 0.0
      && (p.leftover > 0.0 <==> p.adjacent == [] || share < 1.0)
      && (p.adjacent != [] ==> (p.perAdjacent > 0.0 <==> share > 0.0))
      && (p.others != [] ==> (p.perOther > 0.0 <==> p.leftover > 0.0))
  {
    hide Adjacent, Others, Portion, Each, StayOf;
    var p := RowPlan(persistence, neighbours, share, i);
    var remaining := 1.0 - p.stay;
    ShareOfRemainder(remaining, share);
    if p.adjacent != [] { NonNegativeQuotient(Portion(remaining, share), |p.adjacent|); }
    if p.others != [] { NonNegativeQuotient(p.leftover, |p.others|); }
  }

  lemma RawEntrySigns(persistence: map<State, real>, neighbours: map<State, seq<State>>, share: real, i: State,
      j: State)
    requires 0.0 <= share <= 1.0
    ensures RawEntry(persistence, neighbours, share, i, j) >= 0.0
    ensures RawEntry(persistence, neighbours, share, i, i) >= 0.01
    ensures ReachesEvery(neighbours, share, i) ==> RawEntry(persistence, neighbours, share, i, j) > 0.0
  {
    PlanSigns(persistence, neighbours, share, i);
    PlanCoversStates(persistence, neighbours, share, i, j);
    hide RowPlan;
  }

  /** The row of `i` leaves nothing at zero: it has no neighbours, or they get a share and what is left
      reaches the others, if any. */
  predicate ReachesEvery(neighbours: map<State, seq<State>>, share: real, i: State) {
    Adjacent(neighbours, i) == [] || (share > 0.0 && (Others(neighbours, i, STATES) == [] || share < 1.0))
  }

  /** Otherwise some transition out of `i` has weight zero. */
  lemma UnreachedState(persistence: map<State, real>, neighbours: map<State, seq<State>>, share: real, i: State)
      returns (j: State)
    requires 0.0 <= share <= 1.0 && !ReachesEvery(neighbours, share, i)
    ensures RawEntry(persistence, neighbours, share, i, j) == 0.0
  {
    var p := RowPlan(persistence, neighbours, share, i);
    PlanSigns(persistence, neighbours, share, i);
    assert p.adjacent[0] in p.adjacent;
    if share > 0.0 {
      assert p.others[0] in p.others;
      j := p.others[0];
    } else if p.others != [] {
      j := p.adjacent[0];
    } else {
      j := if 0 !in [i, p.adjacent[0]] then 0 else if 1 !in [i, p.adjacent[0]] then 1 else 2;
    }
    PlanCoversStates(persistence, neighbours, share, i, j);
  }

  lemma PlanCoversStates(persistence: map<State, real>, neighbours: map<State, seq<State>>, share: real, i: State,
      j: State)
    ensures var p := RowPlan(persistence, neighbours, share, i);
      j != i ==> (j in p.others <==> j !in p.adjacent)
  {
  }

  lemma RowSumIsPositive(persistence: map<State, real>, neighbours: map<State, seq<State>>, share: real, i: State)
    requires 0.0 <= share <= 1.0
    ensures Sum(RawRow(persistence, neighbours, share, i)) >= 0.01
  {
    hide RawEntry;
    forall j: State ensures RawRow(persistence, neighbours, share, i)[j] >= 0.0 {
      RawEntrySigns(persistence, neighbours, share, i, j);
    }
    RawEntrySigns(persistence, neighbours, share, i, i);
    SumAtLeast(RawRow(persistence, neighbours, share, i), i);
  }

  /** The matrix the construction stands for: every raw row divided by its sum. */
  function Built(persistence: map<State, real>, neighbours: map<State, seq<State>>, share: real): Matrix
    requires 0.0 <= share <= 1.0
  {
    seq(STATES, i requires 0 <= i < STATES =>
      RowSumIsPositive(persistence, neighbours, share, i);
      Over(RawRow(persistence, neighbours, share, i), Sum(RawRow(persistence, neighbours, share, i))))
  }

  /** Filled in place row by row, then normalised. */
  method BuildTransitionMatrix(persistence: map<State, real>, neighbours: map<State, seq<State>>, share: real)
    returns (matrix: array2<real>)
    requires 0.0 <= share <= 1.0
    ensures matrix.Length0 == STATES && matrix.Length1 == STATES
    ensures forall i: State, j: State :: matrix[i, j] == Built(persistence, neighbours, share)[i][j]
  {
    hide RowPlan, Sum;
    matrix := new real[STATES, STATES]((i, j) => 0.0);
    for i := 0 to STATES
      invariant forall r: State, j: State | r < i :: matrix[r, j] == RawEntry(persistence, neighbours, share, r, j)
      invariant forall r: State, j: State | r >= i :: matrix[r, j] == 0.0
    {
      FillRow(matrix, persistence, neighbours, share, i);
    }
    for i := 0 to STATES
      invariant forall r: State, j: State | r < i :: matrix[r, j] == Built(persistence, neighbours, share)[r][j]
      invariant forall r: State, j: State | r >= i :: matrix[r, j] == RawEntry(persistence, neighbours, share, r, j)
    {
      RowSumIsPositive(persistence, neighbours, share, i);
      var total := Sum(RawRow(persistence, neighbours, share, i));
      for j := 0 to STATES
        invariant forall c: State | c < j :: matrix[i, c] == Built(persistence, neighbours, share)[i][c]
        invariant forall c: State | c >= j :: matrix[i, c] == RawEntry(persistence, neighbours, share, i, c)
        invariant forall r: State, c: State | r < i :: matrix[r, c] == Built(persistence, neighbours, share)[r][c]
        invariant forall r: State, c: State | r > i :: matrix[r, c] == RawEntry(persistence, neighbours, share, r, c)
      {
        matrix[i, j] := matrix[i, j] / total;
      }
    }
  }

  method FillRow(matrix: array2<real>, persistence: map<State, real>, neighbours: map<State, seq<State>>, share: real,
      i: State)
    requires matrix.Length0 == STATES && matrix.Length1 == STATES
    requires forall j: State :: matrix[i, j] == 0.0
    modifies matrix
    ensures forall j: State :: matrix[i, j] == RawEntry(persistence, neighbours, share, i, j)
    ensures forall r: State, j: State | r != i :: matrix[r, j] == old(matrix[r, j])
  {
    hide StayOf, Adjacent, Others, Portion, Each;
    var stay := StayOf(persistence, i);
    matrix[i, i] := stay;
    var remaining := 1.0 - stay;
    var adjacent := Adjacent(neighbours, i);
    var others := Others(neighbours, i, STATES);
    var leftover, perAdjacent, perOther := remaining, 0.0, 0.0;
    if adjacent != [] {
      perAdjacent := Each(Portion(remaining, share), |adjacent|);
      for k := 0 to |adjacent|
        invariant forall j: State :: matrix[i, j] ==
                    if j == i then stay else if j in adjacent[..k] then perAdjacent else 0.0
        invariant forall r: State, j: State | r != i :: matrix[r, j] == old(matrix[r, j])
      {
        assert adjacent[k] in adjacent && adjacent[..k + 1] == adjacent[..k] + [adjacent[k]];
        matrix[i, adjacent[k]] := perAdjacent;
      }
      assert adjacent[..|adjacent|] == adjacent;
      leftover := Portion(remaining, 1.0 - share);
    }
    if others != [] {
      perOther := Each(leftover, |others|);
      for k := 0 to |others|
        invariant forall j: State :: matrix[i, j] ==
                    if j == i then stay else if j in adjacent then perAdjacent
                    else if j in others[..k] then perOther else 0.0
        invariant forall r: State, j: State | r != i :: matrix[r, j] == old(matrix[r, j])
      {
        assert others[k] in others && others[..k + 1] == others[..k] + [others[k]];
        matrix[i, others[k]] := perOther;
      }
      assert others[..|others|] == others;
    } else if adjacent != [] {
      assert adjacent[0] in adjacent;
      matrix[i, adjacent[0]] := matrix[i, adjacent[0]] + leftover;
    }
    assert RowPlan(persistence, neighbours, share, i) == Plan(stay, adjacent, others, leftover, perAdjacent, perOther);
  }

  /** For every share from 0 to 1 the rows of the built matrix are distributions. */
  lemma BuiltIsRowStochastic(persistence: map<State, real>, neighbours: map<State, seq<State>>, share: real)
    requires 0.0 <= share <= 1.0
    ensures RowStochastic(Built(persistence, neighbours, share))
  {
    hide RawEntry, Sum;
    forall i: State ensures Distribution(Built(persistence, neighbours, share)[i]) {
      RowSumIsPositive(persistence, neighbours, share, i);
      var row := RawRow(persistence, neighbours, share, i);
      DividedSum(row, Sum(row));
      forall j: State ensures row[j] >= 0.0 {
        RawEntrySigns(persistence, neighbours, share, i, j);
      }
      OverIsNonNegative(row, Sum(row));
    }
  }

  /** No transition of the built matrix has probability zero if and only if every state has no
      neighbours, or they get a positive share and what is left reaches the other states, if any. */
  lemma BuiltIsPositiveExactlyWhen(persistence: map<State, real>, neighbours: map<State, seq<State>>, share: real)
    requires 0.0 <= share <= 1.0
    ensures Stochastic(Built(persistence, neighbours, share)) <==> forall i: State :: ReachesEvery(neighbours, share, i)
  {
    BuiltIsRowStochastic(persistence, neighbours, share);
    var m := Built(persistence, neighbours, share);
    forall i: State ensures Positive(m[i]) <==> ReachesEvery(neighbours, share, i) {
      BuiltRowIsPositiveExactlyWhen(persistence, neighbours, share, i);
    }
    hide Built, Sum, ReachesEvery, Positive;
    forall i: State ensures Sum(m[i]) == 1.0 {
      assert Distribution(m[i]);
    }
  }

  lemma BuiltRowIsPositiveExactlyWhen(persistence: map<State, real>, neighbours: map<State, seq<State>>, share: real,
      i: State)
    requires 0.0 <= share <= 1.0
    ensures Positive(Built(persistence, neighbours, share)[i]) <==> ReachesEvery(neighbours, share, i)
  {
    hide RawEntry, Sum, ReachesEvery;
    var row := RawRow(persistence, neighbours, share, i);
    RowSumIsPositive(persistence, neighbours, share, i);
    if ReachesEvery(neighbours, share, i) {
      forall j: State ensures row[j] > 0.0 {
        RawEntrySigns(persistence, neighbours, share, i, j);
      }
      OverIsNonNegative(row, Sum(row));
    } else {
      var j := UnreachedState(persistence, neighbours, share, i);
      QuotientSigns(row[j], Sum(row));
      assert Built(persistence, neighbours, share)[i][j] == 0.0;
    }
  }

  // ---------------------------------------------------------------- what the built matrix holds

  ghost predicate NoRepeats(s: seq<State>) { forall i, j | 0 <= i < j < |s| :: s[i] != s[j] }

  /** The states listed as neighbours of `i`, other than itself. */
  function NeighboursOf(neighbours: map<State, seq<State>>, i: State): set<State> {
    set j: State | i in neighbours && j in neighbours[i] && j != i
  }

  /** How many of the states below `k` are listed. */
  function CountIn(s: seq<State>, k: nat): nat
    requires k <= STATES
  {
    if k == 0 then 0 else CountIn(s, k - 1) + if (k - 1) in s then 1 else 0
  }

  lemma {:induction false} OtherThanKeepsDistinct(s: seq<State>, i: State)
    requires NoRepeats(s)
    ensures NoRepeats(OtherThan(s, i))
  {
    if s != [] {
      OtherThanKeepsDistinct(s[1..], i);
      var rest := OtherThan(s[1..], i);
      if s[0] != i {
        forall k | 0 <= k < |rest| ensures rest[k] != s[0] {
          assert rest[k] in rest && rest[k] in s[1..];
        }
        assert OtherThan(s, i) == [s[0]] + rest;
      } else {
        assert OtherThan(s, i) == [] + rest == rest;
      }
    }
  }

  lemma {:induction false} CountOfFirst(s: seq<State>, k: nat)
    requires s != [] && k <= STATES && s[0] !in s[1..]
    ensures CountIn(s, k) == CountIn(s[1..], k) + if s[0] < k then 1 else 0
  {
    if k > 0 {
      CountOfFirst(s, k - 1);
      assert (k - 1) in s <==> (k - 1) == s[0] || (k - 1) in s[1..];
    }
  }

  lemma {:induction false} CountOfNone(k: nat)
    requires k <= STATES
    ensures CountIn([], k) == 0
  {
    if k > 0 { CountOfNone(k - 1); }
  }

  lemma {:induction false} DistinctAreCounted(s: seq<State>)
    requires NoRepeats(s)
    ensures CountIn(s, STATES) == |s|
  {
    if s == [] {
      CountOfNone(STATES);
    } else {
      CountOfFirst(s, STATES);
      DistinctAreCounted(s[1..]);
    }
  }

  lemma {:induction false} SetIsCounted(s: seq<State>, k: nat)
    requires k <= STATES
    ensures |set j: State | j < k && j in s| == CountIn(s, k)
  {
    if k == 0 {
      assert (set j: State | j < 0 && j in s) == {};
    } else {
      SetIsCounted(s, k - 1);
      var below, upTo := set j: State | j < k - 1 && j in s, set j: State | j < k && j in s;
      assert upTo == if (k - 1) in s then below + {k - 1} else below;
    }
  }

  /** Every state is `i`, listed, or another one. */
  lemma {:induction false} StatesAreSplit(neighbours: map<State, seq<State>>, i: State, k: nat)
    requires k <= STATES
    ensures (if i < k then 1 else 0) + CountIn(Adjacent(neighbours, i), k) + |Others(neighbours, i, k)| == k
  {
    hide Adjacent;
    if k > 0 { StatesAreSplit(neighbours, i, k - 1); }
  }

  /** The weight of the states below `k`, by kind. */
  function MassBelow(p: Plan, neighbours: map<State, seq<State>>, i: State, k: nat): real
    requires k <= STATES
  {
    (if i < k then p.stay else 0.0)
    + Product(CountIn(p.adjacent, k) as real, p.perAdjacent)
    + (if p.others == [] && p.adjacent != [] && p.adjacent[0] < k then p.leftover else 0.0)
    + Product(|Others(neighbours, i, k)| as real, p.perOther)
  }

  /** The plan lists the neighbours of `i` and the other states. */
  ghost predicate PlansRow(p: Plan, neighbours: map<State, seq<State>>, i: State) {
    p.adjacent == Adjacent(neighbours, i) && forall j: State :: j in p.others <==> j != i && j !in p.adjacent
  }

  lemma MassGrows(p: Plan, neighbours: map<State, seq<State>>, i: State, j: State)
    requires PlansRow(p, neighbours, i)
    ensures MassBelow(p, neighbours, i, j + 1) == MassBelow(p, neighbours, i, j) + p.Entry(i, j)
  {
    hide Product, Adjacent, Others, CountIn;
    CountGrows(p.adjacent, j);
    OneMore(CountIn(p.adjacent, j), p.perAdjacent);
    OneMore(|Others(neighbours, i, j)|, p.perOther);
    if p.adjacent != [] { assert p.adjacent[0] in p.adjacent; }
    OthersGrow(neighbours, i, j);
  }

  lemma CountGrows(s: seq<State>, j: State)
    ensures CountIn(s, j + 1) == CountIn(s, j) + if j in s then 1 else 0
  {
  }

  lemma OthersGrow(neighbours: map<State, seq<State>>, i: State, j: State)
    ensures |Others(neighbours, i, j + 1)|
         == |Others(neighbours, i, j)| + if j != i && j !in Adjacent(neighbours, i) then 1 else 0
  {
    hide Adjacent;
  }

  lemma {:induction false} RawMassBelow(p: Plan, neighbours: map<State, seq<State>>, i: State, row: seq<real>, k: nat)
    requires k <= STATES && |row| == STATES && PlansRow(p, neighbours, i)
    requires forall j: State :: row[j] == p.Entry(i, j)
    ensures Sum(row[..k]) == MassBelow(p, neighbours, i, k)
  {
    hide Sum, MassBelow, PlansRow, Plan.Entry;
    if k == 0 {
      assert row[..0] == [];
      EmptySum();
      NothingBelow(p, neighbours, i);
    } else {
      RawMassBelow(p, neighbours, i, row, k - 1);
      assert row[..k] == row[..k - 1] + [row[k - 1]];
      SumOfAppend(row[..k - 1], row[k - 1]);
      MassGrows(p, neighbours, i, k - 1);
    }
  }

  lemma NothingBelow(p: Plan, neighbours: map<State, seq<State>>, i: State)
    ensures MassBelow(p, neighbours, i, 0) == 0.0
  {
    assert Others(neighbours, i, 0) == [] && CountIn(p.adjacent, 0) == 0;
    hide Product;
    ProductSigns(0.0, p.perAdjacent);
    ProductSigns(0.0, p.perOther);
  }

  lemma EmptySum()
    ensures Sum([]) == 0.0
  {
  }

  lemma OneMore(n: nat, x: real)
    ensures Product((n + 1) as real, x) == Product(n as real, x) + x
  {
  }

  lemma EachTimes(total: real, n: nat)
    requires n > 0
    ensures Product(n as real, Each(total, n)) == total
  {
  }

  /** Without repeated neighbours a raw row already sums to one. */
  lemma RawRowSumsToOne(persistence: map<State, real>, neighbours: map<State, seq<State>>, share: real, i: State)
    requires 0.0 <= share <= 1.0 && (i in neighbours ==> NoRepeats(neighbours[i]))
    ensures Sum(RawRow(persistence, neighbours, share, i)) == 1.0
  {
    var p, row := RowPlan(persistence, neighbours, share, i), RawRow(persistence, neighbours, share, i);
    NeighboursAreAdjacent(neighbours, i);
    PlanIsSpent(persistence, neighbours, share, i);
    PlanLists(persistence, neighbours, share, i);
    assert forall j: State :: row[j] == p.Entry(i, j);
    assert p.adjacent != [] ==> p.adjacent[0] < STATES;
    assert |p.others| == |Others(neighbours, i, STATES)| by { PlanNames(persistence, neighbours, share, i); }
    hide RowPlan, RawRow, Sum, Others, Adjacent, Product;
    RawMassBelow(p, neighbours, i, row, STATES);
    assert row[..STATES] == row;
  }

  lemma PlanNames(persistence: map<State, real>, neighbours: map<State, seq<State>>, share: real, i: State)
    ensures var p := RowPlan(persistence, neighbours, share, i);
      && p.adjacent == Adjacent(neighbours, i) && p.others == Others(neighbours, i, STATES)
      && p.stay == StayOf(persistence, i)
  {
    hide Adjacent, Others, StayOf, Each, Portion;
  }

  lemma PlanLists(persistence: map<State, real>, neighbours: map<State, seq<State>>, share: real, i: State)
    ensures PlansRow(RowPlan(persistence, neighbours, share, i), neighbours, i)
  {
    PlanNames(persistence, neighbours, share, i);
    forall j: State ensures j != i ==> (j in Others(neighbours, i, STATES) <==> j !in Adjacent(neighbours, i)) {
    }
    hide RowPlan, Others, Adjacent;
  }

  lemma PlanIsSpent(persistence: map<State, real>, neighbours: map<State, seq<State>>, share: real, i: State)
    ensures var p := RowPlan(persistence, neighbours, share, i);
      && (p.adjacent == [] ==> p.leftover == 1.0 - p.stay)
      && (p.adjacent != [] ==>
            Product(|p.adjacent| as real, p.perAdjacent) == Product(share, 1.0 - p.stay)
            && p.leftover == Product(1.0 - share, 1.0 - p.stay)
            && Product(share, 1.0 - p.stay) + p.leftover == 1.0 - p.stay)
      && (p.others != [] ==> Product(|p.others| as real, p.perOther) == p.leftover)
      && (p.others == [] ==> Product(|p.others| as real, p.perOther) == 0.0)
      && (p.adjacent == [] ==> Product(|p.adjacent| as real, p.perAdjacent) == 0.0)
  {
    hide Adjacent, Others, StayOf, Each;
    var p := RowPlan(persistence, neighbours, share, i);
    if p.adjacent != [] { EachTimes(Portion(1.0 - p.stay, share), |p.adjacent|); }
    if p.others != [] { EachTimes(p.leftover, |p.others|); }
  }

  lemma NeighboursAreAdjacent(neighbours: map<State, seq<State>>, i: State)
    requires i in neighbours ==> NoRepeats(neighbours[i])
    ensures forall j: State :: j in NeighboursOf(neighbours, i) <==> j in Adjacent(neighbours, i)
    ensures |NeighboursOf(neighbours, i)| == |Adjacent(neighbours, i)| == CountIn(Adjacent(neighbours, i), STATES)
    ensures |Others(neighbours, i, STATES)| == STATES - 1 - |Adjacent(neighbours, i)|
  {
    hide Others, CountIn;
    if i in neighbours { OtherThanKeepsDistinct(neighbours[i], i); }
    DistinctAreCounted(Adjacent(neighbours, i));
    StatesAreSplit(neighbours, i, STATES);
    SetIsCounted(Adjacent(neighbours, i), STATES);
    assert NeighboursOf(neighbours, i) == set j: State | j < STATES && j in Adjacent(neighbours, i);
  }

  /** A row of the matrix is its plan. */
  lemma BuiltIsPlanned(persistence: map<State, real>, neighbours: map<State, seq<State>>, share: real, i: State)
    requires 0.0 <= share <= 1.0 && (i in neighbours ==> NoRepeats(neighbours[i]))
    ensures forall j: State ::
      Built(persistence, neighbours, share)[i][j] == RowPlan(persistence, neighbours, share, i).Entry(i, j)
  {
    RawRowSumsToOne(persistence, neighbours, share, i);
    hide RowPlan, Sum;
  }

  /** A state keeps its persistence, clipped to [0.01, 0.99] and 0.85 by default. What is left goes, in the
      neighbour share, to its neighbours alike and for the rest to the others alike: to the others alone
      when it has no neighbours, and on top to the first neighbour when there are no others. */
  lemma BuiltHolds(persistence: map<State, real>, neighbours: map<State, seq<State>>, share: real, i: State)
    requires 0.0 <= share <= 1.0 && (i in neighbours ==> NoRepeats(neighbours[i]))
    ensures var row, near := Built(persistence, neighbours, share)[i], NeighboursOf(neighbours, i);
      var left, others := 1.0 - row[i], STATES - 1 - |near|;
      && row[i] == (if i !in persistence then 0.85 else if persistence[i] < 0.01 then 0.01
                    else if persistence[i] > 0.99 then 0.99 else persistence[i])
      && (forall j: State | j != i && j !in near ::
            Product(others as real, row[j]) == if near == {} then left else Product(1.0 - share, left))
      && (others > 0 ==> forall j: State | j in near :: Product(|near| as real, row[j]) == Product(share, left))
      && (others == 0 ==> i in neighbours && SpillsOnFirst(row, neighbours[i], i, near, share, left))
  {
    hide Built, RowPlan, Adjacent, Others, NeighboursOf, Product, StayOf, Plan.Entry;
    var p, row := RowPlan(persistence, neighbours, share, i), Built(persistence, neighbours, share)[i];
    BuiltIsPlanned(persistence, neighbours, share, i);
    NeighboursAreAdjacent(neighbours, i);
    PlanIsSpent(persistence, neighbours, share, i);
    PlanNames(persistence, neighbours, share, i);
    PlanLists(persistence, neighbours, share, i);
    EntriesHold(p, row, NeighboursOf(neighbours, i), share, i);
    StayIsClipped(persistence, i);
    if p.others == [] {
      FirstIsListed(neighbours, i);
    }
  }

  lemma EntriesHold(p: Plan, row: Belief, near: set<State>, share: real, i: State)
    requires (forall j: State :: row[j] == p.Entry(i, j)) && |p.others| == STATES - 1 - |near|
    requires |near| == |p.adjacent| && i !in p.adjacent && forall j: State :: j in near <==> j in p.adjacent
    requires forall j: State :: j in p.others <==> j != i && j !in p.adjacent
    requires p.adjacent == [] ==> p.leftover == 1.0 - p.stay
    requires p.adjacent != [] ==> Product(|p.adjacent| as real, p.perAdjacent) == Product(share, 1.0 - p.stay)
    requires p.adjacent != [] ==> p.leftover == Product(1.0 - share, 1.0 - p.stay)
    requires p.others != [] ==> Product(|p.others| as real, p.perOther) == p.leftover
    ensures row[i] == p.stay
    ensures forall j: State | j != i && j !in near ::
      Product(|p.others| as real, row[j]) == if near == {} then 1.0 - row[i] else Product(1.0 - share, 1.0 - row[i])
    ensures p.others != [] ==>
      forall j: State | j in near :: Product(|near| as real, row[j]) == Product(share, 1.0 - row[i])
    ensures p.others == [] ==> SpillsFrom(row, near, share, 1.0 - row[i], p.adjacent[0])
  {
    hide Product;
    assert near == {} <==> p.adjacent == [];
    if p.others == [] {
      assert p.adjacent[0] in p.adjacent;
    }
  }

  lemma {:induction false} FirstOther(s: seq<State>, i: State) returns (k: nat)
    requires OtherThan(s, i) != []
    ensures k < |s| && s[k] == OtherThan(s, i)[0] && forall l | 0 <= l < k :: s[l] == i
  {
    k := 0;
    if s[0] == i {
      var m := FirstOther(s[1..], i);
      k := m + 1;
    }
  }

  lemma FirstIsListed(neighbours: map<State, seq<State>>, i: State)
    requires Adjacent(neighbours, i) != []
    ensures i in neighbours
    ensures exists k :: 0 <= k < |neighbours[i]| && neighbours[i][k] == Adjacent(neighbours, i)[0] != i
                        && forall l | 0 <= l < k :: neighbours[i][l] == i
  {
    var k := FirstOther(neighbours[i], i);
    assert Adjacent(neighbours, i)[0] in Adjacent(neighbours, i);
  }

  lemma StayIsClipped(persistence: map<State, real>, i: State)
    ensures StayOf(persistence, i) == (if i !in persistence then 0.85 else if persistence[i] < 0.01 then 0.01
                                       else if persistence[i] > 0.99 then 0.99 else persistence[i])
  {
  }

  /** All neighbours weigh alike but the first one listed, which takes what is left on top. */
  ghost predicate SpillsOnFirst(row: Belief, listed: seq<State>, i: State, near: set<State>, share: real, left: real) {
    exists k :: 0 <= k < |listed| && listed[k] != i && (forall l | 0 <= l < k :: listed[l] == i)
                && SpillsFrom(row, near, share, left, listed[k])
  }

  ghost predicate SpillsFrom(row: Belief, near: set<State>, share: real, left: real, first: State) {
    && first in near
    && Product(|near| as real, row[first] - Product(1.0 - share, left)) == Product(share, left)
    && forall j: State | j in near && j != first :: Product(|near| as real, row[j]) == Product(share, left)
  }

  /** An instance: with a neighbour share of zero a neighbour is never reached. */
  lemma ZeroShareStarvesNeighbours(persistence: map<State, real>, neighbours: map<State, seq<State>>)
    requires 0 in neighbours && neighbours[0] == [1]
    ensures !Stochastic(Built(persistence, neighbours, 0.0))
  {
    BuiltIsPositiveExactlyWhen(persistence, neighbours, 0.0);
    assert !ReachesEvery(neighbours, 0.0, 0) by {
      assert Adjacent(neighbours, 0) != [];
    }
    hide Built, ReachesEvery;
  }

  // ---------------------------------------------------------------- the filter object

  /** `max(emission.get(s, 0), 1e-12)` per state, then damped by the observation exponent. */
  function Likelihood(emission: map<State, real>, damp: real -> real): Belief {
    seq(STATES, s requires 0 <= s < STATES => damp(Max(if s in emission then emission[s] else 0.0, 0.000000000001)))
  }

  ghost predicate Damps(damp: real -> real) { forall x: real | x > 0.0 :: damp(x) > 0.0 }

  lemma LikelihoodIsPositive(emission: map<State, real>, damp: real -> real)
    requires Damps(damp)
    ensures Positive(Likelihood(emission, damp))
    ensures forall s: State ::
      Likelihood(emission, damp)[s]
        == damp(if s in emission && emission[s] > 0.000000000001 then emission[s] else 0.000000000001)
  {
  }

  function Uniform(): Belief { seq(STATES, _ => 1.0 / STATES as real) }

  lemma UniformIsADistribution()
    ensures Positive(Uniform()) && Distribution(Uniform())
  {
    SumOfConstant(Uniform(), 1.0 / 11.0);
  }

  lemma {:induction false} SumOfConstant(v: seq<real>, x: real)
    requires forall i | 0 <= i < |v| :: v[i] == x
    ensures Sum(v) == |v| as real * x
  {
    if v != [] {
      SumOfConstant(v[1..], x);
      assert |v| as real * x == (|v| - 1) as real * x + x;
    }
  }

  class HiddenStateFilter {
    const transition: Matrix
    const damp: real -> real
    var belief: Belief
    var steps: nat
    /** Likelihood vectors seen since the last reset. */
    ghost var seen: seq<Belief>

    ghost predicate Valid()
      reads this
    {
      && RowStochastic(transition) && Damps(damp)
      && steps == |seen|
      && (forall l | l in seen :: Positive(l))
      && belief == Filtered(Uniform(), transition, seen)
    }

    constructor (transition: Matrix, damp: real -> real)
      requires RowStochastic(transition) && Damps(damp)
      ensures Valid() && seen == [] && this.transition == transition && this.damp == damp
    {
      this.transition := transition;
      this.damp := damp;
      belief := Uniform();
      steps := 0;
      seen := [];
    }

    method Reset()
      requires Valid()
      modifies this
      ensures Valid() && seen == [] && belief == Uniform()
    {
      belief := Uniform();
      steps := 0;
      seen := [];
    }

    method Update(emission: map<State, real>)
      requires Valid()
      modifies this
      ensures Valid() && seen == old(seen) + [Likelihood(emission, damp)] && steps == old(steps) + 1
      ensures belief == Updated(old(belief), transition, Likelihood(emission, damp))
    {
      hide Filtered, Sum, Dot;
      var likelihood := Likelihood(emission, damp);
      LikelihoodIsPositive(emission, damp);
      var predicted := Predict(belief, transition);
      var posterior := Times(predicted, likelihood);
      var total := Sum(posterior);
      UniformIsADistribution();
      ghost var z := FilteredScalesForward(Uniform(), transition, seen);
      FallbackIsUnreachable(belief, transition, likelihood);
      if total <= 0.0 {
        posterior := predicted;
        total := Sum(predicted);
      }
      belief := Over(posterior, total);
      FilteredGrows(Uniform(), transition, seen, likelihood);
      seen := seen + [likelihood];
      steps := steps + 1;
    }
  }

  lemma FilteredGrows(prior: Belief, m: Matrix, ls: seq<Belief>, l: Belief)
    ensures Filtered(prior, m, ls + [l]) == Updated(Filtered(prior, m, ls), m, l)
  {
    assert (ls + [l])[..|ls|] == ls;
  }
}
