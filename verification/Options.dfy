/** Option legs and structures: the value types every other module speaks about.
    Instants and prices are reals; contract quantities are signed integers. */
module Options {
  import opened Vectors

  type Instant = real

  const MULTIPLIER := 100.0

  datatype Option<+T> = None | Some(value: T)

  datatype Right = Call | Put

  datatype Family =
    | BullCallDebitSpread | BullPutCreditSpread | CallButterfly | BrokenWingCallButterfly
    | CallBackspread | BullishCalendar | BullishDiagonal
    | BearPutDebitSpread | BearCallCreditSpread | PutButterfly | BrokenWingPutButterfly
    | PutBackspread | BearishCalendar | BearishDiagonal
    | IronCondor | IronButterfly | BrokenWingCondor | AsymmetricCondor | DoubleCalendar
    | LongStraddle | LongStrangle
  {
    predicate IsCalendarized() {
      BullishCalendar? || BearishCalendar? || BullishDiagonal? || BearishDiagonal? || DoubleCalendar?
    }
  }

  /** One listed option. */
  type LegKey = (Instant, real, Right)

  /** A leg as written down, before the constructor's checks. */
  datatype LegRecord = LegRecord(expiry: Instant, strike: real, right: Right, quantity: int,
                                 entryPrice: real, entryIv: real)
  {
    predicate IsValid() {
      quantity != 0 && strike > 0.0 && entryPrice >= 0.0
    }

    predicate IsLong() { quantity > 0 }

    function Intrinsic(spot: real): real {
      match right
      case Call => Max(0.0, spot - strike)
      case Put => Max(0.0, strike - spot)
    }

    function Key(): LegKey {
      (expiry, strike, right)
    }

    /** Signed dollars per dollar of option value, for one unit of the structure. */
    function Weight(): real {
      quantity as real * MULTIPLIER
    }
  }

  type Leg = l: LegRecord | l.IsValid() witness LegRecord(0.0, 1.0, Call, 1, 0.0, 0.0)

  datatype StructureRecord = StructureRecord(family: Family, legs: seq<Leg>)

  type Strategy = s: StructureRecord | s.legs != []
    witness StructureRecord(LongStraddle, [LegRecord(0.0, 1.0, Call, 1, 0.0, 0.0)])

  function Max(a: real, b: real): real { if a < b then b else a }

  function Min(a: real, b: real): real { if b < a then b else a }

  function Abs(q: int): nat { if q < 0 then -q else q }

  // ---------------------------------------------------------------- sorted distinct values

  ghost predicate Increasing(s: seq<real>) {
    forall i, j | 0 <= i < j < |s| :: s[i] < s[j]
  }

  lemma PutBefore(x: real, s: seq<real>)
    requires Increasing(s) && (s != [] ==> x < s[0])
    ensures Increasing([x] + s) && forall y :: y in [x] + s <==> y == x || y in s
  {
    var r := [x] + s;
    forall i, j | 0 <= i < j < |r| ensures r[i] < r[j] {
      assert r[j] == s[j - 1];
      if i > 0 { assert r[i] == s[i - 1]; }
    }
  }

  lemma PutAfter(x: real, s: seq<real>, tail: seq<real>)
    requires Increasing(s) && s != [] && s[0] < x && Increasing(tail)
    requires forall y :: y in tail <==> y == x || y in s[1..]
    ensures Increasing([s[0]] + tail) && forall y :: y in [s[0]] + tail <==> y == x || y in s
  {
    forall y | y in tail ensures s[0] < y {
      if y != x {
        var k :| 0 <= k < |s[1..]| && s[1..][k] == y;
        assert s[0] < s[k + 1];
      }
    }
    if tail != [] { assert tail[0] in tail; }
    PutBefore(s[0], tail);
    assert forall y :: y in s <==> y == s[0] || y in s[1..];
  }

  function Insert(x: real, s: seq<real>): (r: seq<real>)
    requires Increasing(s)
    ensures Increasing(r) && r != []
    ensures forall y :: y in r <==> y == x || y in s
  {
    if s == [] then [x]
    else if x < s[0] then
      PutBefore(x, s);
      [x] + s
    else if x == s[0] then s
    else
      PutAfter(x, s, Insert(x, s[1..]));
      [s[0]] + Insert(x, s[1..])
  }

  /** `sorted(set(xs))`. */
  function SortedDistinct(xs: seq<real>): (r: seq<real>)
    ensures Increasing(r) && (xs != [] ==> r != [])
    ensures forall y :: y in r <==> y in xs
  {
    if xs == [] then []
    else
      assert forall y :: y in xs <==> y == xs[0] || y in xs[1..];
      Insert(xs[0], SortedDistinct(xs[1..]))
  }

  function Strikes(legs: seq<Leg>): (r: seq<real>)
    ensures Increasing(r) && (legs != [] ==> r != [])
    ensures forall l | l in legs :: l.strike in r
    ensures forall k | k in r :: exists l :: l in legs && l.strike == k
  {
    var ks := seq(|legs|, i requires 0 <= i < |legs| => legs[i].strike);
    assert forall l | l in legs :: l.strike in ks by {
      forall l | l in legs ensures l.strike in ks {
        var i :| 0 <= i < |legs| && legs[i] == l;
        assert ks[i] == l.strike;
      }
    }
    SortedDistinct(ks)
  }

  function Expiries(legs: seq<Leg>): (r: seq<Instant>)
    ensures Increasing(r) && (legs != [] ==> r != [])
    ensures forall l | l in legs :: l.expiry in r
    ensures forall e | e in r :: exists l :: l in legs && l.expiry == e
  {
    var es := seq(|legs|, i requires 0 <= i < |legs| => legs[i].expiry);
    assert forall l | l in legs :: l.expiry in es by {
      forall l | l in legs ensures l.expiry in es {
        var i :| 0 <= i < |legs| && legs[i] == l;
        assert es[i] == l.expiry;
      }
    }
    SortedDistinct(es)
  }

  function NearExpiry(s: Strategy): Instant { Expiries(s.legs)[0] }

  function FarExpiry(s: Strategy): Instant {
    var es := Expiries(s.legs);
    es[|es| - 1]
  }

  predicate IsMultiExpiry(s: Strategy) { |Expiries(s.legs)| > 1 }

  function Weights(legs: seq<Leg>): (w: seq<real>)
    ensures |w| == |legs|
  {
    seq(|legs|, i requires 0 <= i < |legs| => legs[i].Weight())
  }

  function EntryPrices(legs: seq<Leg>): (p: seq<real>)
    ensures |p| == |legs|
  {
    seq(|legs|, i requires 0 <= i < |legs| => legs[i].entryPrice)
  }

  /** Dollars paid (positive) or received (negative) to open one unit. */
  function NetEntryCost(legs: seq<Leg>): real {
    Dot(Weights(legs), EntryPrices(legs))
  }

  /** Total contracts traded by one unit, regardless of side. */
  function ContractCount(legs: seq<Leg>): nat {
    if legs == [] then 0 else Abs(legs[0].quantity) + ContractCount(legs[1..])
  }

  /** Net signed quantity of one right over the legs expiring at `from` or later. */
  function SuffixQuantity(legs: seq<Leg>, right: Right, from: Instant): int {
    if legs == [] then 0
    else (if legs[0].right == right && legs[0].expiry >= from then legs[0].quantity else 0)
         + SuffixQuantity(legs[1..], right, from)
  }

  /** Net signed quantity of one right over all legs. */
  function RightQuantity(legs: seq<Leg>, right: Right): int {
    if legs == [] then 0
    else (if legs[0].right == right then legs[0].quantity else 0) + RightQuantity(legs[1..], right)
  }

  lemma ExpiryRange(s: Strategy)
    ensures forall l | l in s.legs :: NearExpiry(s) <= l.expiry <= FarExpiry(s)
  {
    var es := Expiries(s.legs);
    forall l | l in s.legs ensures NearExpiry(s) <= l.expiry <= FarExpiry(s) {
      var i :| 0 <= i < |es| && es[i] == l.expiry;
    }
  }
}
