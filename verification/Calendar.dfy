/** US equity market calendar: day numbers, Easter, holidays and the next session, for every
    year of the proleptic Gregorian calendar. Days are ordinals (1 January of year 1 is day 1);
    moments are Eastern wall-clock minutes. */
module Calendar {
  import opened Options

  // ---------------------------------------------------------------- day numbers

  predicate IsLeap(y: int) { y % 4 == 0 && (y % 100 != 0 || y % 400 == 0) }

  function LeapDay(y: int): nat { if IsLeap(y) then 1 else 0 }

  function DaysBeforeYear(y: int): int {
    365 * (y - 1) + (y - 1) / 4 - (y - 1) / 100 + (y - 1) / 400
  }

  const DAYS_BEFORE_MONTH: seq<int> := [0, 31, 59, 90, 120, 151, 181, 212, 243, 273, 304, 334]

  function Ordinal(y: int, month: int, day: int): int
    requires 1 <= month <= 12
  {
    DaysBeforeYear(y) + DAYS_BEFORE_MONTH[month - 1] + (if month > 2 then LeapDay(y) else 0) + day
  }

  /** Monday is 0. */
  function Weekday(n: int): int { (n + 6) % 7 }

  lemma LeapsEveryFour(y: int)
    ensures (y - 1) / 4 + (if y % 4 == 0 then 1 else 0) == y / 4
  {
  }

  lemma CenturiesPass(y: int)
    ensures (y - 1) / 100 + (if y % 100 == 0 then 1 else 0) == y / 100
  {
  }

  lemma FourCenturiesPass(y: int)
    ensures (y - 1) / 400 + (if y % 400 == 0 then 1 else 0) == y / 400
  {
  }

  lemma DivisorsNest(y: int)
    ensures y % 400 == 0 ==> y % 100 == 0
    ensures y % 100 == 0 ==> y % 4 == 0
  {
    if y % 400 == 0 {
      HundredTimes(4 * (y / 400));
    }
    if y % 100 == 0 {
      FourTimes(25 * (y / 100));
    }
  }

  lemma HundredTimes(k: int)
    ensures (100 * k) % 100 == 0
  {
  }

  lemma FourTimes(k: int)
    ensures (4 * k) % 4 == 0
  {
  }

  lemma YearLength(y: int)
    ensures DaysBeforeYear(y + 1) == DaysBeforeYear(y) + 365 + LeapDay(y)
  {
    LeapsEveryFour(y);
    CenturiesPass(y);
    FourCenturiesPass(y);
    DivisorsNest(y);
  }

  /** The year a day falls in. */
  function YearOf(n: int): (y: int)
    requires n >= 1
    ensures y >= 1 && DaysBeforeYear(y) < n <= DaysBeforeYear(y + 1)
  {
    YearFrom(n, 1)
  }

  function YearFrom(n: int, y: int): (r: int)
    requires y >= 1 && DaysBeforeYear(y) < n
    ensures r >= 1 && DaysBeforeYear(r) < n <= DaysBeforeYear(r + 1)
    decreases n - DaysBeforeYear(y)
  {
    YearLength(y);
    if n <= DaysBeforeYear(y + 1) then y else YearFrom(n, y + 1)
  }

  lemma {:induction false} YearsInOrder(y: int, z: int)
    requires y < z
    ensures DaysBeforeYear(y + 1) <= DaysBeforeYear(z)
    decreases z - y
  {
    if y + 1 < z {
      YearLength(y + 1);
      YearsInOrder(y + 1, z);
    }
  }

  lemma DaysAreCounted(y: int)
    requires y >= 1
    ensures DaysBeforeYear(y) >= 0
  {
    if y > 1 {
      YearLength(1);
      YearsInOrder(1, y);
    }
  }

  lemma YearIsUnique(n: int, y: int)
    requires n >= 1 && DaysBeforeYear(y) < n <= DaysBeforeYear(y + 1)
    ensures YearOf(n) == y
  {
    var z := YearOf(n);
    if y < z { YearsInOrder(y, z); }
    if z < y { YearsInOrder(z, y); }
  }

  // ---------------------------------------------------------------- Easter

  /** Month and day of Easter Sunday (Meeus/Jones/Butcher). */
  function EasterSunday(y: int): (int, int) {
    var t := EasterIndex(y) + 114;
    (t / 31, t % 31 + 1)
  }

  function GoldenEpact(y: int): int {
    var a, b := y % 19, y / 100;
    var d := b / 4;
    var f := (b + 8) / 25;
    var g := (b - f + 1) / 3;
    (19 * a + b - d - g + 15) % 30
  }

  function SundayOffset(y: int): int {
    var b, c := y / 100, y % 100;
    var e, i, k := b % 4, c / 4, c % 4;
    (32 + 2 * e + 2 * i - GoldenEpact(y) - k) % 7
  }

  function LateCorrection(y: int): int {
    (y % 19 + 11 * GoldenEpact(y) + 22 * SundayOffset(y)) / 451
  }

  /** Days after 22 March. */
  function EasterIndex(y: int): int {
    GoldenEpact(y) + SundayOffset(y) - 7 * LateCorrection(y)
  }

  function EasterOrdinal(y: int): int {
    var (month, day) := EasterSunday(y);
    if 1 <= month <= 12 then Ordinal(y, month, day) else 0
  }

  lemma EasterRange(y: int)
    ensures 0 <= EasterIndex(y) <= 34 && 0 <= SundayOffset(y) <= 6 && 0 <= GoldenEpact(y) <= 29
    ensures LateCorrection(y) ==
      (if SundayOffset(y) == 6 && (GoldenEpact(y) == 29 || (GoldenEpact(y) == 28 && y % 19 > 10)) then 1 else 0)
  {
  }

  lemma EasterIsDaysAfterEquinox(y: int)
    ensures EasterOrdinal(y) == Ordinal(y, 3, 22) + EasterIndex(y)
    ensures var (month, day) := EasterSunday(y);
      (month == 3 && 22 <= day <= 31) || (month == 4 && 1 <= day <= 25)
  {
    EasterRange(y);
    var t := EasterIndex(y) + 114;
    assert t / 31 == (if t < 124 then 3 else 4);
  }

  /** 22 March, counted from the completed centuries and leap years. */
  lemma MarchOrdinal(y: int)
    ensures Ordinal(y, 3, 22) == 365 * y + y / 4 - y / 100 + y / 400 - 284
  {
    YearLength(y);
  }

  lemma SundayArithmetic(d: int, e: int, i: int, k: int, n: int)
    requires n == 365 * (400 * d + 100 * e + 4 * i + k) + (100 * d + 25 * e + i) - (4 * d + e) + d - 284
                  + (32 + 2 * e + 2 * i - k)
    ensures Weekday(n) == 6
  {
    assert n == 7 * (20871 * d + 5218 * e + 209 * i + 52 * k - 36);
  }

  lemma SundayOffsetMeaning(y: int, b: int, c: int) returns (q: int)
    requires b == y / 100 && c == y % 100
    ensures GoldenEpact(y) + SundayOffset(y) == 32 + 2 * (b % 4) + 2 * (c / 4) - c % 4 - 7 * q
  {
    hide GoldenEpact;
    q := (32 + 2 * (b % 4) + 2 * (c / 4) - GoldenEpact(y) - c % 4) / 7;
  }

  lemma CenturyParts(y: int, d: int, e: int, i: int, k: int)
    requires d == y / 100 / 4 && e == y / 100 % 4 && i == y % 100 / 4 && k == y % 100 % 4
    ensures y == 400 * d + 100 * e + 4 * i + k
    ensures y / 4 == 100 * d + 25 * e + i && y / 100 == 4 * d + e && y / 400 == d
  {
  }

  /** For every year the computed Easter is a Sunday between 22 March and 25 April. */
  lemma EasterIsASunday(y: int)
    ensures Weekday(EasterOrdinal(y)) == 6
    ensures Ordinal(y, 3, 22) <= EasterOrdinal(y) <= Ordinal(y, 3, 22) + 34
    ensures Ordinal(y, 4, 25) == Ordinal(y, 3, 22) + 34
  {
    hide GoldenEpact, SundayOffset, LateCorrection, EasterOrdinal, DaysBeforeYear, LeapDay, Weekday;
    EasterIsDaysAfterEquinox(y);
    EasterRange(y);
    MarchOrdinal(y);
    var b, c := y / 100, y % 100;
    var d, e, i, k := b / 4, b % 4, c / 4, c % 4;
    CenturyParts(y, d, e, i, k);
    var q := SundayOffsetMeaning(y, b, c);
    var n := 365 * (400 * d + 100 * e + 4 * i + k) + (100 * d + 25 * e + i) - (4 * d + e) + d - 284
             + (32 + 2 * e + 2 * i - k);
    SundayArithmetic(d, e, i, k, n);
    var r := q + LateCorrection(y);
    assert EasterOrdinal(y) == n - 7 * r;
    SevensKeepWeekday(n, r);
  }

  lemma SevensKeepWeekday(n: int, r: int)
    ensures Weekday(n - 7 * r) == Weekday(n)
  {
  }

  lemma GoodFridayIsAFriday(y: int)
    ensures Weekday(EasterOrdinal(y) - 2) == 4
  {
    hide EasterOrdinal, Weekday;
    EasterIsASunday(y);
    TwoDaysBeforeSunday(EasterOrdinal(y));
  }

  lemma TwoDaysBeforeSunday(n: int)
    requires Weekday(n) == 6
    ensures Weekday(n - 2) == 4
  {
  }

  /** The age of the ecclesiastical moon on 1 January in the Gregorian reckoning: eleven days more each
      year of the nineteen-year cycle, less the leap days left out, plus eight days in 25 centuries. */
  function Epact(y: int): int {
    var c := y / 100;
    (11 * (y % 19) + 8 - c + c / 4 + (8 * c + 13) / 25) % 30
  }

  /** The paschal full moon: as many days after 21 March as the epact leaves, a day less in its two late cases. */
  function PaschalFullMoon(y: int): int {
    var e := Epact(y);
    Ordinal(y, 3, 21) + (53 - e) % 30 - if e == 24 || (e == 25 && y % 19 > 10) then 1 else 0
  }

  lemma CenturyIsSplit(c: int, k: int, r: int)
    requires c == 25 * k + r && 0 <= r < 25
    ensures (c + 8) / 25 == k + (r + 8) / 25 && (8 * c + 13) / 25 == 8 * k + (8 * r + 13) / 25
  {
  }

  lemma ThirdIsSplit(k: int, r: int)
    ensures (24 * k + r) / 3 == 8 * k + r / 3
  {
  }

  /** The lunar correction of the algorithm is the one of the reckoning. */
  lemma LunarCorrection(c: int)
    ensures (c - (c + 8) / 25 + 1) / 3 == (8 * c + 13) / 25
  {
    var k, r := c / 25, c % 25;
    CenturyIsSplit(c, k, r);
    ThirdIsSplit(k, r - (r + 8) / 25 + 1);
    assert (r - (r + 8) / 25 + 1) / 3 == (8 * r + 13) / 25;
  }

  lemma ComplementModThirty(x: int, y: int, k: int)
    requires x + y == 53 + 30 * k
    ensures x % 30 == (53 - y % 30) % 30
  {
  }

  /** The algorithm's moon is the one of the epact, in every year. */
  lemma MoonIsTheEpacts(y: int)
    ensures GoldenEpact(y) == (53 - Epact(y)) % 30 && 0 <= Epact(y) < 30
  {
    var a, b := y % 19, y / 100;
    var d, g := b / 4, (b - (b + 8) / 25 + 1) / 3;
    LunarCorrection(b);
    ComplementModThirty(19 * a + b - d - g + 15, 11 * a + 8 - b + d + g, a - 1);
  }

  lemma OneSundayAWeek(sunday: int, n: int)
    requires Weekday(sunday) == 6 && sunday - 7 < n < sunday
    ensures Weekday(n) != 6
  {
  }

  /** Easter is the first Sunday strictly after the paschal full moon. */
  lemma EasterFollowsTheFullMoon(y: int)
    ensures PaschalFullMoon(y) < EasterOrdinal(y) <= PaschalFullMoon(y) + 7
    ensures forall n | PaschalFullMoon(y) < n < EasterOrdinal(y) :: Weekday(n) != 6
  {
    hide GoldenEpact, Epact, SundayOffset, LateCorrection, EasterOrdinal, DaysBeforeYear, LeapDay, Weekday;
    EasterIsDaysAfterEquinox(y);
    EasterRange(y);
    EasterIsASunday(y);
    MoonIsTheEpacts(y);
    assert PaschalFullMoon(y) < EasterOrdinal(y) <= PaschalFullMoon(y) + 7;
    forall n | PaschalFullMoon(y) < n < EasterOrdinal(y) ensures Weekday(n) != 6 {
      OneSundayAWeek(EasterOrdinal(y), n);
    }
  }

  // ---------------------------------------------------------------- holiday rules

  lemma OffsetReaches(first: int, weekday: int, offset: int)
    requires 0 <= weekday < 7 && offset == (weekday - Weekday(first)) % 7
    ensures Weekday(first + offset) == weekday && 0 <= offset <= 6
  {
    var a, b := (first + 6) / 7, (weekday - Weekday(first)) / 7;
    assert first + offset + 6 == 7 * (a - b) + weekday;
  }

  lemma OffsetReachesBack(last: int, weekday: int, offset: int)
    requires 0 <= weekday < 7 && offset == (Weekday(last) - weekday) % 7
    ensures Weekday(last - offset) == weekday && 0 <= offset <= 6
  {
    var a, b := (last + 6) / 7, (Weekday(last) - weekday) / 7;
    assert last - offset + 6 == 7 * (a + b) + weekday;
  }

  function NthWeekday(y: int, month: int, weekday: int, n: int): (r: int)
    requires 1 <= month <= 12 && 0 <= weekday < 7
    ensures Weekday(r) == weekday
    ensures Ordinal(y, month, 1) + 7 * (n - 1) <= r <= Ordinal(y, month, 1) + 7 * (n - 1) + 6
  {
    hide Ordinal;
    var first := Ordinal(y, month, 1);
    var offset := (weekday - Weekday(first)) % 7;
    OffsetReaches(first, weekday, offset);
    SevensKeepWeekday(first + offset, 1 - n);
    first + offset + 7 * (n - 1)
  }

  function LastWeekday(y: int, month: int, weekday: int): (r: int)
    requires 1 <= month <= 12 && 0 <= weekday < 7
    ensures Weekday(r) == weekday
    ensures var following := Ordinal(y + (if month == 12 then 1 else 0), month % 12 + 1, 1);
      following - 7 <= r < following
  {
    hide Ordinal;
    var last := Ordinal(y + (if month == 12 then 1 else 0), month % 12 + 1, 1) - 1;
    var offset := (Weekday(last) - weekday) % 7;
    OffsetReachesBack(last, weekday, offset);
    last - offset
  }

  /** Saturday is observed on Friday, Sunday on Monday; a Saturday New Year is not observed. */
  function Observed(y: int, month: int, day: int): (r: Option<int>)
    requires 1 <= month <= 12
    ensures r.None? <==> month == 1 && day == 1 && Weekday(Ordinal(y, month, day)) == 5
    ensures r.Some? ==> Weekday(r.value) < 5 && Ordinal(y, month, day) - 1 <= r.value <= Ordinal(y, month, day) + 1
    ensures r.Some? && Weekday(Ordinal(y, month, day)) < 5 ==> r.value == Ordinal(y, month, day)
  {
    var n := Ordinal(y, month, day);
    if Weekday(n) == 5 then (if month == 1 && day == 1 then None else Some(n - 1))
    else if Weekday(n) == 6 then Some(n + 1)
    else Some(n)
  }

  const JUNETEENTH_FIRST_YEAR := 2022

  /** The ten closures of a year, in the order they fall. */
  function Holiday(y: int, k: nat): Option<int>
    requires k < 10
  {
    match k
    case 0 => Observed(y, 1, 1)
    case 1 => Some(NthWeekday(y, 1, 0, 3))
    case 2 => Some(NthWeekday(y, 2, 0, 3))
    case 3 => Some(EasterOrdinal(y) - 2)
    case 4 => Some(LastWeekday(y, 5, 0))
    case 5 => if y >= JUNETEENTH_FIRST_YEAR then Observed(y, 6, 19) else None
    case 6 => Observed(y, 7, 4)
    case 7 => Some(NthWeekday(y, 9, 0, 1))
    case 8 => Some(NthWeekday(y, 11, 3, 4))
    case _ => Observed(y, 12, 25)
  }

  ghost predicate IsHolidayOf(y: int, n: int) {
    exists k: nat :: k < 10 && Holiday(y, k) == Some(n)
  }

  method MarketHolidays(y: int) returns (days: set<int>)
    ensures forall n :: n in days <==> IsHolidayOf(y, n)
  {
    hide Observed, NthWeekday, LastWeekday, EasterOrdinal, Holiday, IsHolidayOf;
    HolidayRules(y);
    days := {};
    var fixed := [(1, 1), (7, 4), (12, 25)];
    for i := 0 to 3
      invariant forall n :: n in days <==>
        || (i > 0 && Holiday(y, 0) == Some(n))
        || (i > 1 && Holiday(y, 6) == Some(n))
        || (i > 2 && Holiday(y, 9) == Some(n))
    {
      var observed := Observed(y, fixed[i].0, fixed[i].1);
      if observed.Some? {
        days := days + {observed.value};
      }
    }
    if y >= JUNETEENTH_FIRST_YEAR {
      var observed := Observed(y, 6, 19);
      if observed.Some? {
        days := days + {observed.value};
      }
    }
    days := days + {NthWeekday(y, 1, 0, 3)};
    days := days + {NthWeekday(y, 2, 0, 3)};
    days := days + {LastWeekday(y, 5, 0)};
    days := days + {NthWeekday(y, 9, 0, 1)};
    days := days + {NthWeekday(y, 11, 3, 4)};
    days := days + {EasterOrdinal(y) - 2};
    TenHolidays(y, days);
  }

  lemma HolidayRules(y: int)
    ensures Holiday(y, 0) == Observed(y, 1, 1) && Holiday(y, 6) == Observed(y, 7, 4)
    ensures Holiday(y, 9) == Observed(y, 12, 25)
    ensures Holiday(y, 5) == if y >= JUNETEENTH_FIRST_YEAR then Observed(y, 6, 19) else None
    ensures Holiday(y, 1) == Some(NthWeekday(y, 1, 0, 3)) && Holiday(y, 2) == Some(NthWeekday(y, 2, 0, 3))
    ensures Holiday(y, 3) == Some(EasterOrdinal(y) - 2) && Holiday(y, 4) == Some(LastWeekday(y, 5, 0))
    ensures Holiday(y, 7) == Some(NthWeekday(y, 9, 0, 1)) && Holiday(y, 8) == Some(NthWeekday(y, 11, 3, 4))
  {
    hide Observed, NthWeekday, LastWeekday, EasterOrdinal;
  }

  lemma TenHolidays(y: int, days: set<int>)
    requires forall n :: n in days <==>
      Holiday(y, 0) == Some(n) || Holiday(y, 1) == Some(n) || Holiday(y, 2) == Some(n) || Holiday(y, 3) == Some(n)
      || Holiday(y, 4) == Some(n) || Holiday(y, 5) == Some(n) || Holiday(y, 6) == Some(n) || Holiday(y, 7) == Some(n)
      || Holiday(y, 8) == Some(n) || Holiday(y, 9) == Some(n)
    ensures forall n :: n in days <==> IsHolidayOf(y, n)
  {
    hide Holiday, IsHolidayOf;
    forall n ensures n in days <==> IsHolidayOf(y, n) { OneOfTen(y, n); }
  }

  // ---------------------------------------------------------------- the closures by date

  function MonthLength(y: int, month: int): int
    requires 1 <= month <= 12
  {
    if month == 2 then (if IsLeap(y) then 29 else 28)
    else if month == 4 || month == 6 || month == 9 || month == 11 then 30
    else 31
  }

  /** Months follow one another by their lengths, and years by their months. */
  lemma MonthsFollow(y: int, month: int)
    requires 1 <= month <= 12
    ensures Ordinal(y, month, 1) + MonthLength(y, month) == Ordinal(if month == 12 then y + 1 else y, month % 12 + 1, 1)
  {
    YearLength(y);
    hide DaysBeforeYear, IsLeap;
  }

  /** A day that falls on a Saturday moves to the Friday before it, one on a Sunday to the Monday after. */
  predicate ObservedOn(n: int, fixed: int) {
    n == if Weekday(fixed) == 5 then fixed - 1 else if Weekday(fixed) == 6 then fixed + 1 else fixed
  }

  predicate FallsWithin(n: int, weekday: int, y: int, month: int, first: int)
    requires 1 <= month <= 12
  {
    Weekday(n) == weekday && Ordinal(y, month, first) <= n <= Ordinal(y, month, first) + 6
  }

  /** The closures of a year: New Year (not observed when it is a Saturday), the third Mondays of January and
      February, Good Friday, the last Monday of May, 19 June from 2022 on, 4 July, the first Monday of
      September, the fourth Thursday of November, and Christmas. */
  predicate ClosesOn(y: int, n: int) {
    || (ObservedOn(n, Ordinal(y, 1, 1)) && Weekday(Ordinal(y, 1, 1)) != 5)
    || FallsWithin(n, 0, y, 1, 15) || FallsWithin(n, 0, y, 2, 15)
    || n == EasterOrdinal(y) - 2
    || FallsWithin(n, 0, y, 5, 25)
    || (y >= 2022 && ObservedOn(n, Ordinal(y, 6, 19)))
    || ObservedOn(n, Ordinal(y, 7, 4))
    || FallsWithin(n, 0, y, 9, 1) || FallsWithin(n, 3, y, 11, 22)
    || ObservedOn(n, Ordinal(y, 12, 25))
  }

  lemma OnlyOneInAWeek(n: int, m: int, first: int)
    requires first <= n <= first + 6 && first <= m <= first + 6 && Weekday(n) == Weekday(m)
    ensures n == m
  {
  }

  lemma NthFallsWithin(n: int, y: int, month: int, weekday: int, k: int)
    requires 1 <= month <= 12 && 0 <= weekday < 7
    ensures n == NthWeekday(y, month, weekday, k) <==> FallsWithin(n, weekday, y, month, 7 * k - 6)
  {
    hide NthWeekday, DaysBeforeYear, LeapDay, Weekday;
    var r := NthWeekday(y, month, weekday, k);
    assert Ordinal(y, month, 7 * k - 6) == Ordinal(y, month, 1) + 7 * (k - 1);
    if FallsWithin(n, weekday, y, month, 7 * k - 6) {
      OnlyOneInAWeek(n, r, Ordinal(y, month, 7 * k - 6));
    }
  }

  lemma LastFallsWithin(n: int, y: int)
    ensures n == LastWeekday(y, 5, 0) <==> FallsWithin(n, 0, y, 5, 25)
  {
    hide LastWeekday, DaysBeforeYear, LeapDay, Weekday;
    var r := LastWeekday(y, 5, 0);
    assert Ordinal(y, 5, 25) == Ordinal(y, 6, 1) - 7;
    if FallsWithin(n, 0, y, 5, 25) {
      OnlyOneInAWeek(n, r, Ordinal(y, 5, 25));
    }
  }

  lemma ObservedIs(n: int, y: int, month: int, day: int)
    requires 1 <= month <= 12
    ensures Observed(y, month, day) == Some(n) <==>
      ObservedOn(n, Ordinal(y, month, day)) && !(month == 1 && day == 1 && Weekday(Ordinal(y, 1, 1)) == 5)
  {
    hide Weekday, DaysBeforeYear, LeapDay;
  }

  /** A day is a holiday of the year exactly when it is one of those dates. */
  lemma HolidaysByDate(y: int, n: int)
    ensures IsHolidayOf(y, n) <==> ClosesOn(y, n)
  {
    hide Observed, NthWeekday, LastWeekday, EasterOrdinal, Holiday, FallsWithin, ObservedOn, Ordinal, Weekday,
      IsHolidayOf;
    OneOfTen(y, n);
    HolidayRules(y);
    ObservedIs(n, y, 1, 1);
    ObservedIs(n, y, 6, 19);
    ObservedIs(n, y, 7, 4);
    ObservedIs(n, y, 12, 25);
    NthFallsWithin(n, y, 1, 0, 3);
    NthFallsWithin(n, y, 2, 0, 3);
    LastFallsWithin(n, y);
    NthFallsWithin(n, y, 9, 0, 1);
    NthFallsWithin(n, y, 11, 3, 4);
  }

  lemma OneOfTen(y: int, n: int)
    ensures IsHolidayOf(y, n) <==>
      Holiday(y, 0) == Some(n) || Holiday(y, 1) == Some(n) || Holiday(y, 2) == Some(n) || Holiday(y, 3) == Some(n)
      || Holiday(y, 4) == Some(n) || Holiday(y, 5) == Some(n) || Holiday(y, 6) == Some(n) || Holiday(y, 7) == Some(n)
      || Holiday(y, 8) == Some(n) || Holiday(y, 9) == Some(n)
  {
    hide Holiday;
    if IsHolidayOf(y, n) {
      var k: nat :| k < 10 && Holiday(y, k) == Some(n);
      assert k == 0 || k == 1 || k == 2 || k == 3 || k == 4 || k == 5 || k == 6 || k == 7 || k == 8 || k == 9;
    }
  }

  ghost predicate IsHoliday(n: int)
    requires n >= 1
  {
    IsHolidayOf(YearOf(n), n)
  }

  ghost predicate IsTradingDay(n: int)
    requires n >= 1
  {
    Weekday(n) < 5 && !IsHoliday(n)
  }

  // ---------------------------------------------------------------- holidays are a week apart

  /** First day of the stretch of year the k-th closure can fall on, counted from 1 January
      (leap day excluded from March on). */
  function Earliest(k: nat): int
    requires k < 10
  {
    [0, 14, 45, 78, 144, 168, 183, 243, 325, 357][k]
  }

  function Latest(k: nat): int
    requires k < 10
  {
    [1, 20, 51, 112, 150, 170, 185, 249, 331, 359][k]
  }

  lemma HolidayRange(y: int, k: nat)
    requires k < 10 && Holiday(y, k).Some?
    ensures var jan1 := DaysBeforeYear(y) + 1 + if k > 2 then LeapDay(y) else 0;
      jan1 + Earliest(k) <= Holiday(y, k).value <= jan1 + Latest(k)
    ensures Weekday(Holiday(y, k).value) < 5
  {
    hide EasterOrdinal, DaysBeforeYear, LeapDay, Weekday, NthWeekday, LastWeekday;
    if k == 3 {
      EasterIsASunday(y);
      GoodFridayIsAFriday(y);
    }
  }

  lemma RangesAreAWeekApart(k: nat, l: nat)
    requires k < l < 10
    ensures Latest(k) + 7 <= Earliest(l)
  {
  }

  /** New Year is a week after Christmas and is observed on the same weekday, or not at all. */
  lemma ChristmasToNewYear(y: int)
    requires Holiday(y, 9).Some? && Holiday(y + 1, 0).Some?
    ensures Holiday(y, 9).value + 7 <= Holiday(y + 1, 0).value
  {
    hide DaysBeforeYear, LeapDay;
    YearLength(y);
    assert Ordinal(y + 1, 1, 1) == Ordinal(y, 12, 25) + 7;
  }

  lemma HolidaysAreAWeekApart(y: int, k: nat, z: int, l: nat)
    requires k < 10 && l < 10 && Holiday(y, k).Some? && Holiday(z, l).Some?
    requires y < z || (y == z && k < l)
    ensures Holiday(y, k).value + 7 <= Holiday(z, l).value
  {
    hide Holiday;
    HolidayRange(y, k);
    HolidayRange(z, l);
    if y == z {
      RangesAreAWeekApart(k, l);
    } else if z > y + 1 {
      YearLength(y);
      YearLength(y + 1);
      YearsInOrder(y + 1, z);
      assert Latest(k) <= 359 && Earliest(l) >= 0;
    } else {
      YearLength(y);
      if k == 9 && l == 0 {
        ChristmasToNewYear(y);
      } else {
        if k < 9 { RangesAreAWeekApart(k, 9); }
        if 0 < l { RangesAreAWeekApart(0, l); }
      }
    }
  }

  /** A closure falls inside the year it belongs to. */
  lemma HolidayStaysInYear(y: int, n: int)
    requires y >= 1 && IsHolidayOf(y, n)
    ensures n >= 1 && YearOf(n) == y && Weekday(n) < 5
  {
    hide Holiday;
    var k: nat :| k < 10 && Holiday(y, k) == Some(n);
    HolidayRange(y, k);
    YearLength(y);
    DaysAreCounted(y);
    YearIsUnique(n, y);
  }

  /** In any seven consecutive days at most one is a market holiday. */
  lemma AtMostOneHolidayAWeek(n: int, m: int)
    requires 1 <= n < m <= n + 6
    ensures !(IsHoliday(n) && IsHoliday(m))
  {
    hide Holiday;
    if IsHoliday(n) && IsHoliday(m) {
      var y, z := YearOf(n), YearOf(m);
      var k: nat :| k < 10 && Holiday(y, k) == Some(n);
      var l: nat :| l < 10 && Holiday(z, l) == Some(m);
      if z < y || (y == z && l < k) { HolidaysAreAWeekApart(z, l, y, k); }
      if y < z || (y == z && k < l) { HolidaysAreAWeekApart(y, k, z, l); }
    }
  }

  ghost function TradingDaysFrom(n: int, days: nat): nat
    requires n >= 1
  {
    if days == 0 then 0 else TradingDaysFrom(n, days - 1) + if IsTradingDay(n + days - 1) then 1 else 0
  }

  ghost function HolidayFlag(n: int): int
    requires n >= 1
  {
    if IsHoliday(n) then 1 else 0
  }

  lemma HolidayFlagsInAWeek(n: int)
    requires n >= 1
    ensures HolidayFlag(n) + HolidayFlag(n + 1) + HolidayFlag(n + 2) + HolidayFlag(n + 3)
            + HolidayFlag(n + 4) + HolidayFlag(n + 5) + HolidayFlag(n + 6) <= 1
  {
    hide IsHoliday;
    forall a, b | n <= a < b <= n + 6 ensures HolidayFlag(a) + HolidayFlag(b) <= 1 {
      AtMostOneHolidayAWeek(a, b);
    }
  }

  function WeekdayFlag(n: int): int { if Weekday(n) < 5 then 1 else 0 }

  lemma WeekdayShift(n: int, k: nat)
    ensures Weekday(n + k) == (Weekday(n) + k) % 7
  {
  }

  lemma FiveWeekdaysInAWeek(n: int)
    ensures WeekdayFlag(n) + WeekdayFlag(n + 1) + WeekdayFlag(n + 2) + WeekdayFlag(n + 3)
            + WeekdayFlag(n + 4) + WeekdayFlag(n + 5) + WeekdayFlag(n + 6) == 5
  {
    WeekdayShift(n, 1);
    WeekdayShift(n, 2);
    WeekdayShift(n, 3);
    WeekdayShift(n, 4);
    WeekdayShift(n, 5);
    WeekdayShift(n, 6);
    assert 0 <= Weekday(n) < 7;
    hide Weekday;
  }

  lemma TradingDayFlag(n: int, days: nat)
    requires n >= 1 && days > 0
    ensures TradingDaysFrom(n, days) >= TradingDaysFrom(n, days - 1)
              + WeekdayFlag(n + days - 1) - HolidayFlag(n + days - 1)
  {
    hide IsHoliday;
  }

  /** At least four of any seven consecutive days are trading days. */
  lemma FourTradingDaysAWeek(n: int)
    requires n >= 1
    ensures TradingDaysFrom(n, 7) >= 4
  {
    hide TradingDaysFrom, HolidayFlag, WeekdayFlag;
    HolidayFlagsInAWeek(n);
    FiveWeekdaysInAWeek(n);
    assert TradingDaysFrom(n, 0) >= 0;
    TradingDayFlag(n, 1);
    TradingDayFlag(n, 2);
    TradingDayFlag(n, 3);
    TradingDayFlag(n, 4);
    TradingDayFlag(n, 5);
    TradingDayFlag(n, 6);
    TradingDayFlag(n, 7);
  }

  lemma TwoWeekdaysInFour(n: int)
    ensures WeekdayFlag(n + 1) + WeekdayFlag(n + 2) + WeekdayFlag(n + 3) + WeekdayFlag(n + 4) >= 2
  {
    WeekdayShift(n, 1);
    WeekdayShift(n, 2);
    WeekdayShift(n, 3);
    WeekdayShift(n, 4);
    assert 0 <= Weekday(n) < 7;
    hide Weekday;
  }

  /** The market reopens within four days of any day. */
  lemma ReopensWithinFourDays(n: int) returns (d: int)
    requires n >= 1
    ensures n < d <= n + 4 && IsTradingDay(d)
  {
    hide IsHoliday, Weekday;
    TwoWeekdaysInFour(n);
    forall a, b | n < a < b <= n + 4 ensures !(IsHoliday(a) && IsHoliday(b)) {
      AtMostOneHolidayAWeek(a, b);
    }
    if IsTradingDay(n + 1) { d := n + 1; }
    else if IsTradingDay(n + 2) { d := n + 2; }
    else if IsTradingDay(n + 3) { d := n + 3; }
    else { d := n + 4; }
  }

  // ---------------------------------------------------------------- sessions

  const OPEN_MINUTE := 570.0
  const CLOSE_MINUTE := 960.0
  const EARLY_CLOSE_MINUTE := 780.0

  /** Minutes since day 0 began. */
  function At(day: int, minute: real): real { day as real * 1440.0 + minute }

  ghost predicate IsEarlyCloseOf(y: int, n: int) {
    && !IsHolidayOf(y, n)
    && (|| n == NthWeekday(y, 11, 3, 4) + 1
        || (n == Ordinal(y, 7, 3) && Weekday(n) < 5 && Weekday(n + 1) < 5)
        || (n == Ordinal(y, 12, 24) && Weekday(n) < 5 && Weekday(n + 1) < 5))
  }

  method EarlyCloses(y: int) returns (days: set<int>)
    ensures forall n :: n in days <==> IsEarlyCloseOf(y, n)
  {
    hide IsHolidayOf;
    days := {};
    var holidays := MarketHolidays(y);
    var dayAfter := NthWeekday(y, 11, 3, 4) + 1;
    if dayAfter !in holidays {
      days := days + {dayAfter};
    }
    var julyThird := Ordinal(y, 7, 3);
    if Weekday(julyThird) < 5 && Weekday(Ordinal(y, 7, 4)) < 5 && julyThird !in holidays {
      days := days + {julyThird};
    }
    var christmasEve := Ordinal(y, 12, 24);
    if Weekday(christmasEve) < 5 && Weekday(Ordinal(y, 12, 25)) < 5 && christmasEve !in holidays {
      days := days + {christmasEve};
    }
  }

  /** The shortened days by date: the Friday after Thanksgiving, and 3 July and Christmas Eve when they and
      the day after are weekdays. None of them is ever a holiday. */
  lemma EarlyClosesByDate(y: int, n: int)
    ensures IsEarlyCloseOf(y, n) <==>
      || FallsWithin(n, 4, y, 11, 23)
      || (n == Ordinal(y, 7, 3) && Weekday(n) < 4)
      || (n == Ordinal(y, 12, 24) && Weekday(n) < 4)
  {
    hide IsHolidayOf, NthWeekday, DaysBeforeYear, LeapDay;
    NthFallsWithin(n - 1, y, 11, 3, 4);
    assert Ordinal(y, 11, 23) == Ordinal(y, 11, 22) + 1 && Ordinal(y, 7, 4) == Ordinal(y, 7, 3) + 1
        && Ordinal(y, 12, 25) == Ordinal(y, 12, 24) + 1;
    WeekdayShift(n - 1, 1);
    WeekdayShift(n, 1);
    assert 0 <= Weekday(n) < 7 && 0 <= Weekday(n - 1) < 7;
    assert n == NthWeekday(y, 11, 3, 4) + 1 <==> FallsWithin(n, 4, y, 11, 23);
    NextIsHoliday(y, n);
    hide Weekday, Ordinal, FallsWithin;
  }

  /** The day beside a holiday is none. */
  lemma NextIsHoliday(y: int, n: int)
    ensures n == NthWeekday(y, 11, 3, 4) + 1 ==> !IsHolidayOf(y, n)
    ensures n == Ordinal(y, 7, 3) && Weekday(n + 1) < 5 ==> !IsHolidayOf(y, n)
    ensures n == Ordinal(y, 12, 24) && Weekday(n + 1) < 5 ==> !IsHolidayOf(y, n)
  {
    HolidayRules(y);
    assert Ordinal(y, 7, 4) == Ordinal(y, 7, 3) + 1 && Ordinal(y, 12, 25) == Ordinal(y, 12, 24) + 1;
    hide Holiday, Weekday, Ordinal, NthWeekday, EasterOrdinal, LastWeekday;
    if k: nat :| k < 10 && Holiday(y, k) == Some(n) {
      BesideNone(y, k, 8, n - 1);
      BesideNone(y, k, 6, n + 1);
      BesideNone(y, k, 9, n + 1);
    }
  }

  lemma BesideNone(y: int, k: nat, l: nat, m: int)
    requires k < 10 && l < 10 && Holiday(y, k).Some? && Holiday(y, k).value - 1 <= m <= Holiday(y, k).value + 1
    requires m != Holiday(y, k).value
    ensures Holiday(y, l) != Some(m)
  {
    hide Holiday;
    if Holiday(y, l).Some? && k < l { HolidaysAreAWeekApart(y, k, y, l); }
    if Holiday(y, l).Some? && l < k { HolidaysAreAWeekApart(y, l, y, k); }
  }

  lemma EarlyCloseRange(y: int, n: int)
    requires IsEarlyCloseOf(y, n)
    ensures DaysBeforeYear(y) < n <= DaysBeforeYear(y) + 365
  {
    hide IsHolidayOf, DaysBeforeYear, IsLeap, NthWeekday, Weekday;
  }

  lemma FridayAfterThursday(n: int)
    requires Weekday(n) == 3
    ensures Weekday(n + 1) == 4
  {
  }

  /** A shortened day is a trading day of the year it is listed for. */
  lemma EarlyClosesTrade(y: int, n: int)
    requires y >= 1 && IsEarlyCloseOf(y, n)
    ensures n >= 1 && YearOf(n) == y && IsTradingDay(n)
  {
    hide IsHolidayOf, DaysBeforeYear, LeapDay, NthWeekday, Weekday, Ordinal;
    EarlyCloseRange(y, n);
    YearLength(y);
    DaysAreCounted(y);
    YearIsUnique(n, y);
    FridayAfterThursdayIn(y);
  }

  lemma FridayAfterThursdayIn(y: int)
    ensures Weekday(NthWeekday(y, 11, 3, 4) + 1) == 4
  {
    hide NthWeekday;
    FridayAfterThursday(NthWeekday(y, 11, 3, 4));
  }

  ghost predicate IsEarlyClose(n: int)
    requires n >= 1
  {
    IsTradingDay(n) && IsEarlyCloseOf(YearOf(n), n)
  }

  datatype Session = Session(day: int, openAt: real, closeAt: real, isEarlyClose: bool)

  ghost predicate IsSession(s: Session) {
    && s.day >= 1 && IsTradingDay(s.day)
    && s.openAt == At(s.day, OPEN_MINUTE)
    && s.isEarlyClose == IsEarlyClose(s.day)
    && s.closeAt == At(s.day, if s.isEarlyClose then EARLY_CLOSE_MINUTE else CLOSE_MINUTE)
  }

  /** Trading runs from 9:30 to 16:00, or to 13:00 on a shortened day. */
  lemma SessionHours(s: Session)
    requires IsSession(s)
    ensures s.openAt == s.day as real * 24.0 * 60.0 + 9.0 * 60.0 + 30.0
    ensures s.closeAt - s.openAt == if IsEarlyClose(s.day) then 3.0 * 60.0 + 30.0 else 6.0 * 60.0 + 30.0
  {
    hide IsEarlyClose, IsTradingDay;
  }

  method SessionFor(n: int) returns (s: Option<Session>)
    requires n >= 1
    ensures s.Some? <==> IsTradingDay(n)
    ensures s.Some? ==> s.value.day == n && IsSession(s.value)
  {
    hide IsHolidayOf, IsEarlyCloseOf;
    var holidays := MarketHolidays(YearOf(n));
    if Weekday(n) >= 5 || n in holidays {
      return None;
    }
    var shortened := EarlyCloses(YearOf(n));
    var early := n in shortened;
    s := Some(Session(n, At(n, OPEN_MINUTE), At(n, if early then EARLY_CLOSE_MINUTE else CLOSE_MINUTE), early));
  }

  /** The first session opening strictly after the moment, searched `limitDays` ahead. A horizon of
      four days already never comes back empty; the default is thirty. */
  method NextSession(today: int, minute: real, limitDays: nat) returns (s: Option<Session>)
    requires today >= 1 && 0.0 <= minute < 1440.0
    ensures s.Some? ==> IsSession(s.value) && s.value.openAt > At(today, minute)
                        && today <= s.value.day <= today + limitDays
    ensures s.Some? ==>
      forall other | IsSession(other) && other.openAt > At(today, minute) :: s.value.openAt <= other.openAt
    ensures s.None? ==>
      forall other | IsSession(other) && other.openAt > At(today, minute) :: other.day > today + limitDays
    ensures limitDays >= 4 ==> s.Some? && s.value.day <= today + 4
  {
    hide IsTradingDay, IsEarlyClose;
    var reopening := ReopensWithinFourDays(today);
    for offset := 0 to limitDays + 1
      invariant forall d | today <= d < today + offset && IsTradingDay(d) :: At(d, OPEN_MINUTE) <= At(today, minute)
      invariant offset <= reopening - today
    {
      s := SessionFor(today + offset);
      if s.Some? && s.value.openAt > At(today, minute) {
        forall other | IsSession(other) && other.openAt > At(today, minute) ensures s.value.openAt <= other.openAt {
        }
        return;
      }
    }
    s := None;
    forall other | IsSession(other) && other.openAt > At(today, minute) ensures other.day > today + limitDays {
    }
  }

  /** Decision timestamps from the open at a fixed interval; the close itself is excluded. None for an
      interval that does not advance. */
  method DecisionTimes(s: Session, interval: real) returns (out: Option<seq<real>>)
    requires s.openAt <= s.closeAt
    ensures out.None? <==> interval <= 0.0
    ensures out.Some? ==>
      forall k | 0 <= k < |out.value| :: out.value[k] == s.openAt + k as real * interval && out.value[k] < s.closeAt
    ensures out.Some? ==> s.openAt + |out.value| as real * interval >= s.closeAt
  {
    if interval <= 0.0 {
      return None;
    }
    var times: seq<real> := [];
    var moment := s.openAt;
    while moment < s.closeAt
      invariant moment == s.openAt + |times| as real * interval
      invariant forall k | 0 <= k < |times| :: times[k] == s.openAt + k as real * interval && times[k] < s.closeAt
      decreases Remaining(s.closeAt - moment, interval)
    {
      StepShortens(s.closeAt - moment, interval);
      times := times + [moment];
      moment := moment + interval;
    }
    out := Some(times);
  }

  /** Whole intervals left before the close. */
  function Remaining(gap: real, interval: real): nat
    requires interval > 0.0
  {
    if gap <= 0.0 then 0 else Positive(gap / interval) + 1
  }

  function Positive(x: real): nat { if x <= 0.0 then 0 else x.Floor }

  lemma StepShortens(gap: real, interval: real)
    requires interval > 0.0 && gap > 0.0
    ensures Remaining(gap - interval, interval) < Remaining(gap, interval)
  {
    var q := gap / interval;
    assert q * interval == gap;
    QuotientIsUnique(gap - interval, interval, q - 1.0);
  }

  lemma QuotientIsUnique(a: real, b: real, q: real)
    requires b > 0.0 && q * b == a
    ensures a / b == q
  {
    var r := a / b;
    assert (r - q) * b == 0.0;
  }
}
