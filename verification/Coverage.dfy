/** Defined-risk validation: the expiry suffix-coverage rule, what it means for individual
    contracts, and its agreement with the payoff arithmetic. */
module Coverage {
  import opened Options
  import opened Payoff

  const MAX_LEGS := 6
  const MIN_MAX_LOSS := 0.000001

  datatype Problem =
    | TooManyLegs(count: nat)
    | SpansExpirations(count: nat)
    | DuplicateLegs
    | UncoveredShort(right: Right, suffix: int, expiry: Instant)
    | MaxLossNotFinite
    | UnboundedUpside(slope: real)
    | NonPositiveMaxLoss(value: real)

  /** At no instant do the legs expiring then or later sum to a short of either right. */
  ghost predicate SuffixCovered(legs: seq<Leg>) {
    forall right, from: Instant :: SuffixQuantity(legs, right, from) >= 0
  }

  // ---------------------------------------------------------------- listed expiries decide every instant

  function LegsOf(legs: seq<Leg>, right: Right): (r: seq<Leg>)
    ensures forall l :: l in r <==> l in legs && l.right == right
  {
    if legs == [] then [] else (if legs[0].right == right then [legs[0]] else []) + LegsOf(legs[1..], right)
  }

  lemma {:induction false} SuffixDependsOnSurvivors(legs: seq<Leg>, right: Right, a: Instant, b: Instant)
    requires forall l | l in legs && l.right == right :: l.expiry >= a <==> l.expiry >= b
    ensures SuffixQuantity(legs, right, a) == SuffixQuantity(legs, right, b)
  {
    if legs != [] {
      assert legs[0] in legs && forall l | l in legs[1..] :: l in legs;
      SuffixDependsOnSurvivors(legs[1..], right, a, b);
    }
  }

  lemma {:induction false} NothingSurvives(legs: seq<Leg>, right: Right, from: Instant)
    requires forall l | l in legs && l.right == right :: l.expiry < from
    ensures SuffixQuantity(legs, right, from) == 0
  {
    if legs != [] {
      assert legs[0] in legs && forall l | l in legs[1..] :: l in legs;
      NothingSurvives(legs[1..], right, from);
    }
  }

  lemma FirstFrom(es: seq<Instant>, from: Instant) returns (i: nat)
    ensures i <= |es| && (forall j | 0 <= j < i :: es[j] < from) && (i < |es| ==> es[i] >= from)
  {
    i := 0;
    while i < |es| && es[i] < from
      invariant i <= |es| && forall j | 0 <= j < i :: es[j] < from
    {
      i := i + 1;
    }
  }

  /** Every instant is judged like the next listed expiry of the right. */
  lemma NextListedExpiry(legs: seq<Leg>, right: Right, from: Instant)
    ensures SuffixQuantity(legs, right, from) == 0
      || exists e ::
        e in Expiries(LegsOf(legs, right)) && SuffixQuantity(legs, right, from) == SuffixQuantity(legs, right, e)
  {
    var es := Expiries(LegsOf(legs, right));
    var i := FirstFrom(es, from);
    forall l | l in legs && l.right == right
      ensures if i < |es| then l.expiry >= from <==> l.expiry >= es[i] else l.expiry < from
    {
      assert l in LegsOf(legs, right);
      var j :| 0 <= j < |es| && es[j] == l.expiry;
    }
    if i < |es| {
      assert es[i] in es;
      SuffixDependsOnSurvivors(legs, right, from, es[i]);
    } else {
      NothingSurvives(legs, right, from);
    }
  }

  // ---------------------------------------------------------------- the checks

  method CoverageViolations(s: Strategy) returns (problems: seq<Problem>)
    ensures forall right, e, suffix :: UncoveredShort(right, suffix, e) in problems <==>
              e in Expiries(LegsOf(s.legs, right)) && suffix == SuffixQuantity(s.legs, right, e) && suffix < 0
    ensures forall p | p in problems :: p.UncoveredShort?
    ensures problems == [] <==> SuffixCovered(s.legs)
  {
    problems := [];
    var rights := [Call, Put];
    for r := 0 to 2
      invariant forall p | p in problems :: p.UncoveredShort?
      invariant forall right, e, suffix :: UncoveredShort(right, suffix, e) in problems <==>
                  right in rights[..r] && e in Expiries(LegsOf(s.legs, right))
                  && suffix == SuffixQuantity(s.legs, right, e) && suffix < 0
    {
      var right := rights[r];
      var es := Expiries(LegsOf(s.legs, right));
      for i := 0 to |es|
        invariant forall p | p in problems :: p.UncoveredShort?
        invariant forall other, e, suffix :: UncoveredShort(other, suffix, e) in problems <==>
                    ((other in rights[..r] && e in Expiries(LegsOf(s.legs, other))) || (other == right && e in es[..i]))
                    && suffix == SuffixQuantity(s.legs, other, e) && suffix < 0
      {
        assert es[..i + 1] == es[..i] + [es[i]];
        var suffix := SuffixQuantity(s.legs, right, es[i]);
        if suffix < 0 {
          problems := problems + [UncoveredShort(right, suffix, es[i])];
        }
      }
      assert es[..|es|] == es;
      assert rights[..r + 1] == rights[..r] + [right];
    }
    assert rights[..2] == rights;
    ListedExpiriesDecide(s.legs, problems);
  }

  lemma ListedExpiriesDecide(legs: seq<Leg>, problems: seq<Problem>)
    requires forall right, e, suffix :: UncoveredShort(right, suffix, e) in problems <==>
               e in Expiries(LegsOf(legs, right)) && suffix == SuffixQuantity(legs, right, e) && suffix < 0
    requires forall p | p in problems :: p.UncoveredShort?
    ensures problems == [] <==> SuffixCovered(legs)
  {
    if problems == [] {
      forall right, from: Instant ensures SuffixQuantity(legs, right, from) >= 0 {
        NextListedExpiry(legs, right, from);
        forall e | e in Expiries(LegsOf(legs, right)) ensures SuffixQuantity(legs, right, e) >= 0 {
          assert UncoveredShort(right, SuffixQuantity(legs, right, e), e) !in problems;
        }
      }
    } else {
      var p := problems[0];
      assert p == UncoveredShort(p.right, p.suffix, p.expiry);
    }
  }

  ghost predicate NoDuplicateLegs(legs: seq<Leg>) {
    forall i, j | 0 <= i < j < |legs| :: legs[i].Key() != legs[j].Key()
  }

  function KeyCount(legs: seq<Leg>, key: LegKey): nat {
    if legs == [] then 0
    else KeyCount(legs[..|legs| - 1], key) + if legs[|legs| - 1].Key() == key then 1 else 0
  }

  lemma {:induction false} CountedKeysOccur(legs: seq<Leg>, k: LegKey)
    ensures KeyCount(legs, k) > 0 <==> exists i :: 0 <= i < |legs| && legs[i].Key() == k
  {
    if legs != [] {
      var front := legs[..|legs| - 1];
      CountedKeysOccur(front, k);
      if KeyCount(front, k) > 0 {
        var i :| 0 <= i < |front| && front[i].Key() == k;
        assert legs[i].Key() == k;
      }
    }
  }

  ghost predicate CountsAtMostOne(legs: seq<Leg>) {
    forall k :: KeyCount(legs, k) <= 1
  }

  lemma {:induction false} CountsMeanRepeats(legs: seq<Leg>)
    ensures CountsAtMostOne(legs) <==> NoDuplicateLegs(legs)
  {
    if legs != [] {
      var front, last := legs[..|legs| - 1], legs[|legs| - 1];
      CountsMeanRepeats(front);
      CountedKeysOccur(front, last.Key());
      if NoDuplicateLegs(legs) {
        assert NoDuplicateLegs(front);
        forall k ensures KeyCount(legs, k) <= 1 { assert KeyCount(front, k) <= 1; }
        assert CountsAtMostOne(legs);
      }
      if CountsAtMostOne(legs) {
        forall k ensures KeyCount(front, k) <= 1 { assert KeyCount(legs, k) <= 1; }
        assert KeyCount(legs, last.Key()) <= 1;
        assert NoDuplicateLegs(front);
      }
    }
  }

  /** Keys carried by more than one leg, counted in a dictionary. */
  method DuplicateLegKeys(s: Strategy) returns (keys: set<LegKey>)
    ensures keys == {} <==> NoDuplicateLegs(s.legs)
    ensures forall k :: k in keys <==> KeyCount(s.legs, k) > 1
  {
    var seen: map<LegKey, nat> := map[];
    for i := 0 to |s.legs|
      invariant forall k :: (if k in seen then seen[k] else 0) == KeyCount(s.legs[..i], k)
    {
      var key := s.legs[i].Key();
      assert s.legs[..i + 1][..i] == s.legs[..i];
      seen := seen[key := (if key in seen then seen[key] else 0) + 1];
    }
    assert s.legs[..|s.legs|] == s.legs;
    keys := set k | k in seen && seen[k] > 1;
    CountsMeanRepeats(s.legs);
    forall k ensures k in keys <==> KeyCount(s.legs, k) > 1 {
      assert (if k in seen then seen[k] else 0) == KeyCount(s.legs, k);
    }
    assert keys == {} <==> CountsAtMostOne(s.legs);
  }

  ghost predicate Admissible(s: Strategy) {
    && |s.legs| <= 6
    && (IsMultiExpiry(s) ==> s.family.IsCalendarized())
    && NoDuplicateLegs(s.legs)
    && SuffixCovered(s.legs)
  }

  /** Full pre-entry validation: structure, coverage, then the payoff cross-check. */
  method ValidateDefinedRisk(s: Strategy) returns (violations: seq<Problem>, profile: Profile)
    ensures IsProfile(s, None, profile)
    ensures violations == [] <==>
      Admissible(s) && profile.maxLoss.Finite? && profile.maxLoss.value >= 0.000001
    ensures SuffixCovered(s.legs) ==>
      MaxLossNotFinite !in violations && forall slope :: UnboundedUpside(slope) !in violations
  {
    hide IsProfile, Expiries, NoDuplicateLegs, SuffixCovered;
    violations := [];
    if |s.legs| > MAX_LEGS {
      violations := violations + [TooManyLegs(|s.legs|)];
    }
    if IsMultiExpiry(s) && !s.family.IsCalendarized() {
      violations := violations + [SpansExpirations(|Expiries(s.legs)|)];
    }
    var duplicates := DuplicateLegKeys(s);
    if duplicates != {} {
      violations := violations + [DuplicateLegs];
    }
    assert violations == [] <==>
      |s.legs| <= MAX_LEGS && (IsMultiExpiry(s) ==> s.family.IsCalendarized()) && NoDuplicateLegs(s.legs);
    var uncovered := CoverageViolations(s);
    violations := violations + uncovered;
    assert violations == [] <==> Admissible(s);
    profile := ComputeProfile(s, None);
    SlopeInProfile(s, profile);
    if profile.maxLoss == Infinite {
      violations := violations + [MaxLossNotFinite];
    }
    if profile.upsideSlope < 0.0 {
      violations := violations + [UnboundedUpside(profile.upsideSlope)];
    }
    if violations == [] && profile.maxLoss.value < MIN_MAX_LOSS {
      violations := violations + [NonPositiveMaxLoss(profile.maxLoss.value)];
    }
  }

  lemma SlopeInProfile(s: Strategy, p: Profile)
    requires IsProfile(s, None, p)
    ensures p.maxLoss == Infinite <==> p.upsideSlope < 0.0
    ensures SuffixCovered(s.legs) ==> p.upsideSlope >= 0.0
  {
    if SuffixCovered(s.legs) {
      CoverageBoundsTheSlope(s);
    }
  }

  lemma {:induction false} EarliestSuffixIsEverything(legs: seq<Leg>, right: Right, from: Instant)
    requires forall l | l in legs :: l.expiry >= from
    ensures SuffixQuantity(legs, right, from) == RightQuantity(legs, right)
  {
    if legs != [] {
      assert legs[0] in legs && forall l | l in legs[1..] :: l in legs;
      EarliestSuffixIsEverything(legs[1..], right, from);
    }
  }

  /** A covered structure never slopes down to the upside, so the cross-check cannot contradict it. */
  lemma CoverageBoundsTheSlope(s: Strategy)
    requires SuffixCovered(s.legs)
    ensures UpsideSlope(s) >= 0.0
  {
    ExpiryRange(s);
    EarliestSuffixIsEverything(s.legs, Call, NearExpiry(s));
    assert SuffixQuantity(s.legs, Call, NearExpiry(s)) >= 0;
  }

  /** What admission buys: a fixed dollar amount that no settlement of the structure can exceed. */
  lemma AdmittedLossIsDefined(s: Strategy, p: Profile, spot: real, at: Instant, marks: seq<real>)
    requires IsProfile(s, None, p) && SuffixCovered(s.legs)
    requires spot >= 0.0 && at >= NearExpiry(s) && AdmissibleMarks(s.legs, marks, spot, at)
    ensures p.maxLoss.Finite? && LiquidationPnl(s, marks) >= -p.maxLoss.value
  {
    SlopeInProfile(s, p);
    MaxLossIsABound(s, None, p, spot, at, marks);
  }

  // ---------------------------------------------------------------- single contracts

  function Repeat(e: Instant, n: nat): (r: seq<Instant>)
    ensures |r| == n && forall x | x in r :: x == e
  {
    if n == 0 then [] else [e] + Repeat(e, n - 1)
  }

  /** Expiries of the single long (or short) contracts of one right. */
  function Contracts(legs: seq<Leg>, right: Right, long: bool): seq<Instant> {
    if legs == [] then []
    else (if legs[0].right == right && legs[0].IsLong() == long
          then Repeat(legs[0].expiry, Abs(legs[0].quantity)) else [])
         + Contracts(legs[1..], right, long)
  }

  function CountFrom(es: seq<Instant>, from: Instant): nat {
    if es == [] then 0 else (if es[0] >= from then 1 else 0) + CountFrom(es[1..], from)
  }

  lemma {:induction false} CountFromConcat(a: seq<Instant>, b: seq<Instant>, from: Instant)
    ensures CountFrom(a + b, from) == CountFrom(a, from) + CountFrom(b, from)
  {
    if a == [] {
      assert a + b == b;
    } else {
      CountFromConcat(a[1..], b, from);
      assert (a + b)[1..] == a[1..] + b;
    }
  }

  lemma {:induction false} CountFromRepeat(e: Instant, n: nat, from: Instant)
    ensures CountFrom(Repeat(e, n), from) == if e >= from then n else 0
  {
    if n > 0 {
      CountFromRepeat(e, n - 1, from);
    }
  }

  lemma {:induction false} SuffixCountsContracts(legs: seq<Leg>, right: Right, from: Instant)
    ensures SuffixQuantity(legs, right, from)
         == CountFrom(Contracts(legs, right, true), from) - CountFrom(Contracts(legs, right, false), from)
  {
    if legs != [] {
      SuffixCountsContracts(legs[1..], right, from);
      var l := legs[0];
      CountFromRepeat(l.expiry, Abs(l.quantity), from);
      forall long: bool ensures CountFrom(Contracts(legs, right, long), from) ==
        (if l.right == right && l.IsLong() == long && l.expiry >= from then Abs(l.quantity) else 0)
        + CountFrom(Contracts(legs[1..], right, long), from)
      {
        if l.right == right && l.IsLong() == long {
          CountFromConcat(Repeat(l.expiry, Abs(l.quantity)), Contracts(legs[1..], right, long), from);
        } else {
          assert [] + Contracts(legs[1..], right, long) == Contracts(legs[1..], right, long);
        }
      }
    }
  }

  // ---------------------------------------------------------------- pairing shorts with longs

  datatype Pair = Pair(short: Instant, long: Instant)

  function ShortsOf(pairs: seq<Pair>): (r: seq<Instant>)
    ensures |r| == |pairs|
  {
    if pairs == [] then [] else [pairs[0].short] + ShortsOf(pairs[1..])
  }

  function LongsOf(pairs: seq<Pair>): (r: seq<Instant>)
    ensures |r| == |pairs|
  {
    if pairs == [] then [] else [pairs[0].long] + LongsOf(pairs[1..])
  }

  /** Every short contract has its own long contract that expires no earlier. */
  ghost predicate IsPairing(pairs: seq<Pair>, shorts: seq<Instant>, longs: seq<Instant>) {
    && multiset(ShortsOf(pairs)) == multiset(shorts)
    && multiset(LongsOf(pairs)) <= multiset(longs)
    && (forall p | p in pairs :: p.short <= p.long)
  }

  function Without(es: seq<Instant>, i: nat): (r: seq<Instant>)
    requires i < |es|
    ensures multiset(r) == multiset(es) - multiset{es[i]} && |r| == |es| - 1
  {
    assert es == es[..i] + [es[i]] + es[i + 1..];
    es[..i] + es[i + 1..]
  }

  lemma CountWithout(es: seq<Instant>, i: nat, from: Instant)
    requires i < |es|
    ensures CountFrom(Without(es, i), from) == CountFrom(es, from) - if es[i] >= from then 1 else 0
  {
    assert es == es[..i] + ([es[i]] + es[i + 1..]);
    CountFromConcat(es[..i], [es[i]] + es[i + 1..], from);
    CountFromConcat([es[i]], es[i + 1..], from);
    CountFromConcat(es[..i], es[i + 1..], from);
  }

  lemma {:induction false} CountIsMonotone(a: seq<Instant>, b: seq<Instant>, from: Instant)
    requires multiset(a) <= multiset(b)
    ensures CountFrom(a, from) <= CountFrom(b, from)
  {
    if a != [] {
      assert a[0] in multiset(a) && a[0] in multiset(b);
      var i :| 0 <= i < |b| && b[i] == a[0];
      assert a == [a[0]] + a[1..];
      CountIsMonotone(a[1..], Without(b, i), from);
      CountWithout(b, i, from);
    }
  }

  lemma {:induction false} PairsKeepCounts(pairs: seq<Pair>, from: Instant)
    requires forall p | p in pairs :: p.short <= p.long
    ensures CountFrom(ShortsOf(pairs), from) <= CountFrom(LongsOf(pairs), from)
  {
    if pairs != [] {
      assert pairs[0] in pairs && forall p | p in pairs[1..] :: p in pairs;
      PairsKeepCounts(pairs[1..], from);
    }
  }

  lemma {:induction false} LatestContract(es: seq<Instant>) returns (i: nat)
    requires es != []
    ensures i < |es| && forall j | 0 <= j < |es| :: es[j] <= es[i]
  {
    i := 0;
    for k := 1 to |es|
      invariant i < k && forall j | 0 <= j < k :: es[j] <= es[i]
    {
      if es[k] > es[i] { i := k; }
    }
  }

  lemma {:induction false} CountedContract(es: seq<Instant>, from: Instant) returns (i: nat)
    requires CountFrom(es, from) > 0
    ensures i < |es| && es[i] >= from
  {
    if es[0] >= from {
      i := 0;
    } else {
      var k := CountedContract(es[1..], from);
      i := k + 1;
    }
  }

  lemma {:induction false} NoneCountedAfterLatest(es: seq<Instant>, from: Instant)
    requires forall j | 0 <= j < |es| :: es[j] < from
    ensures CountFrom(es, from) == 0
  {
    if es != [] {
      NoneCountedAfterLatest(es[1..], from);
    }
  }

  /** Taking out the latest short and a long that outlives it leaves the rest as well covered. */
  lemma FewerStillCovered(shorts: seq<Instant>, longs: seq<Instant>, m: nat, k: nat)
    requires forall from :: CountFrom(shorts, from) <= CountFrom(longs, from)
    requires m < |shorts| && k < |longs| && shorts[m] <= longs[k]
    requires forall j | 0 <= j < |shorts| :: shorts[j] <= shorts[m]
    ensures forall from :: CountFrom(Without(shorts, m), from) <= CountFrom(Without(longs, k), from)
  {
    hide CountFrom, Without;
    forall from ensures CountFrom(Without(shorts, m), from) <= CountFrom(Without(longs, k), from) {
      CountWithout(shorts, m, from);
      CountWithout(longs, k, from);
      if from > shorts[m] {
        NoneCountedAfterLatest(shorts, from);
      }
    }
  }

  /** Serve the latest short first: any long that outlives it will do. */
  lemma {:induction false} BuildPairing(shorts: seq<Instant>, longs: seq<Instant>) returns (pairs: seq<Pair>)
    requires forall from :: CountFrom(shorts, from) <= CountFrom(longs, from)
    ensures IsPairing(pairs, shorts, longs)
    decreases |shorts|
  {
    if shorts == [] {
      pairs := [];
    } else {
      hide CountFrom, Without, IsPairing;
      var m := LatestContract(shorts);
      LatestIsCounted(shorts, m);
      var k := CountedContract(longs, shorts[m]);
      FewerStillCovered(shorts, longs, m, k);
      var rest := BuildPairing(Without(shorts, m), Without(longs, k));
      pairs := [Pair(shorts[m], longs[k])] + rest;
      PairedWithTheRest(shorts, longs, m, k, rest);
    }
  }

  lemma LatestIsCounted(es: seq<Instant>, m: nat)
    requires m < |es|
    ensures CountFrom(es, es[m]) > 0
  {
    CountWithout(es, m, es[m]);
  }

  lemma PairedWithTheRest(shorts: seq<Instant>, longs: seq<Instant>, m: nat, k: nat, rest: seq<Pair>)
    requires m < |shorts| && k < |longs| && shorts[m] <= longs[k]
    requires IsPairing(rest, Without(shorts, m), Without(longs, k))
    ensures IsPairing([Pair(shorts[m], longs[k])] + rest, shorts, longs)
  {
    hide Without;
    var pairs := [Pair(shorts[m], longs[k])] + rest;
    assert pairs[1..] == rest;
    assert ShortsOf(pairs) == [shorts[m]] + ShortsOf(rest) && LongsOf(pairs) == [longs[k]] + LongsOf(rest);
    PutBack(shorts, m, ShortsOf(rest));
    PutBack(longs, k, LongsOf(rest));
    hide ShortsOf, LongsOf;
    forall p | p in pairs ensures p.short <= p.long {
    }
  }

  lemma PutBack(es: seq<Instant>, i: nat, fewer: seq<Instant>)
    requires i < |es|
    ensures multiset(fewer) == multiset(Without(es, i)) ==> multiset([es[i]] + fewer) == multiset(es)
    ensures multiset(fewer) <= multiset(Without(es, i)) ==> multiset([es[i]] + fewer) <= multiset(es)
  {
    hide Without;
    assert es[i] in multiset(es);
    assert multiset([es[i]] + fewer) == multiset{es[i]} + multiset(fewer);
  }

  ghost predicate CanBePaired(legs: seq<Leg>, right: Right) {
    exists pairs :: IsPairing(pairs, Contracts(legs, right, false), Contracts(legs, right, true))
  }

  ghost predicate RightCovered(legs: seq<Leg>, right: Right) {
    forall from: Instant :: SuffixQuantity(legs, right, from) >= 0
  }

  lemma PairingForRight(legs: seq<Leg>, right: Right)
    ensures RightCovered(legs, right) <==> CanBePaired(legs, right)
  {
    hide Contracts;
    var shorts, longs := Contracts(legs, right, false), Contracts(legs, right, true);
    if RightCovered(legs, right) {
      forall from ensures CountFrom(shorts, from) <= CountFrom(longs, from) {
        SuffixCountsContracts(legs, right, from);
        assert SuffixQuantity(legs, right, from) >= 0;
      }
      var pairs := BuildPairing(shorts, longs);
    }
    if CanBePaired(legs, right) {
      var pairs :| IsPairing(pairs, shorts, longs);
      forall from: Instant ensures SuffixQuantity(legs, right, from) >= 0 {
        SuffixCountsContracts(legs, right, from);
        PairsKeepCounts(pairs, from);
        CountIsMonotone(LongsOf(pairs), longs, from);
        CountIsMonotone(shorts, ShortsOf(pairs), from);
      }
    }
  }

  /** The suffix rule is clean exactly when, for each right, every single short contract can be
      given a long contract of its own that expires no earlier. */
  lemma CoverageIsAPairing(legs: seq<Leg>)
    ensures SuffixCovered(legs) <==> CanBePaired(legs, Call) && CanBePaired(legs, Put)
  {
    PairingForRight(legs, Call);
    PairingForRight(legs, Put);
    assert SuffixCovered(legs) <==> RightCovered(legs, Call) && RightCovered(legs, Put) by {
      if RightCovered(legs, Call) && RightCovered(legs, Put) {
        forall right, from: Instant ensures SuffixQuantity(legs, right, from) >= 0 {
          if right == Call { assert RightCovered(legs, Call); } else { assert right == Put; }
        }
      }
    }
  }

  // ---------------------------------------------------------------- live contracts

  /** Net signed quantity still alive strictly after `now`. */
  function LiveQuantity(legs: seq<Leg>, right: Right, now: Instant): int {
    if legs == [] then 0
    else (if legs[0].right == right && legs[0].expiry > now then legs[0].quantity else 0)
         + LiveQuantity(legs[1..], right, now)
  }

  lemma {:induction false} LiveIsASuffix(legs: seq<Leg>, right: Right, now: Instant, from: Instant)
    requires forall l | l in legs :: l.expiry > now <==> l.expiry >= from
    ensures LiveQuantity(legs, right, now) == SuffixQuantity(legs, right, from)
  {
    if legs != [] {
      assert legs[0] in legs && forall l | l in legs[1..] :: l in legs;
      LiveIsASuffix(legs[1..], right, now, from);
    }
  }

  ghost predicate NeverNetShort(legs: seq<Leg>) {
    forall right, now: Instant :: LiveQuantity(legs, right, now) >= 0
  }

  /** At every instant live shorts never exceed live longs, and that is all the rule says. */
  lemma CoverageAtEveryInstant(s: Strategy)
    ensures SuffixCovered(s.legs) <==> NeverNetShort(s.legs)
  {
    if SuffixCovered(s.legs) {
      forall right, now: Instant ensures LiveQuantity(s.legs, right, now) >= 0 {
        var from := JustAfter(s, now);
        LiveIsASuffix(s.legs, right, now, from);
        assert SuffixQuantity(s.legs, right, from) >= 0;
      }
      assert NeverNetShort(s.legs);
    }
    if NeverNetShort(s.legs) {
      forall right, from: Instant ensures SuffixQuantity(s.legs, right, from) >= 0 {
        var now := JustBefore(s, from);
        LiveIsASuffix(s.legs, right, now, from);
        assert LiveQuantity(s.legs, right, now) >= 0;
      }
    }
  }

  lemma {:induction false} JustAfter(s: Strategy, now: Instant) returns (from: Instant)
    ensures from > now && forall l | l in s.legs :: l.expiry > now <==> l.expiry >= from
  {
    from := now + 1.0;
    for i := 0 to |s.legs|
      invariant from > now
      invariant forall j | 0 <= j < i :: s.legs[j].expiry > now <==> s.legs[j].expiry >= from
    {
      if now < s.legs[i].expiry < from { from := s.legs[i].expiry; }
    }
  }

  lemma {:induction false} JustBefore(s: Strategy, from: Instant) returns (now: Instant)
    ensures now < from && forall l | l in s.legs :: l.expiry > now <==> l.expiry >= from
  {
    now := from - 1.0;
    for i := 0 to |s.legs|
      invariant now < from
      invariant forall j | 0 <= j < i :: s.legs[j].expiry > now <==> s.legs[j].expiry >= from
    {
      if now < s.legs[i].expiry < from { now := s.legs[i].expiry; }
    }
  }
}
