/** Days since the epoch as a civil date, against a calendar that only counts. */
module Calendar {
  import opened Common

  datatype Date = Date(year: int, month: int, day: int)

  // ---- the conversion ---------------------------------------------------

  const EPOCH: int := 719468
  const ERA: int := 146097

  /** Division as the code does it, towards zero. */
  function TruncDiv(a: int, b: int): int
    requires b > 0
  {
    if a >= 0 then a / b else -((-a) / b)
  }

  function EraOf(z: int): int { TruncDiv(if z >= 0 then z else z - 146096, ERA) }

  function YearOfEra(doe: nat): nat { (doe - doe / 1460 + doe / 36524 - doe / 146096) / 365 }

  function DayOfYear(doe: nat, yoe: nat): int { doe - (365 * yoe + yoe / 4 - yoe / 100) }

  function MonthPart(doy: int): int { (5 * doy + 2) / 153 }

  /** The date of a day of an era, with January and February at the end of a year. */
  function DateIn(era: int, yoe: nat, doy: int): Date {
    var mp := MonthPart(doy);
    var d := doy - (153 * mp + 2) / 5 + 1;
    var m := if mp < 10 then mp + 3 else mp - 9;
    Date(if m <= 2 then yoe + era * 400 + 1 else yoe + era * 400, m, d)
  }

  function CivilFromDays(days: int): Date {
    var z := days + EPOCH;
    var era := EraOf(z);
    EraBounds(z);
    var doe: nat := z - era * ERA;
    var yoe := YearOfEra(doe);
    DateIn(era, yoe, DayOfYear(doe, yoe))
  }

  lemma EraBounds(z: int)
    ensures 0 <= z - EraOf(z) * ERA < ERA
  {
  }

  // ---- the calendar, by counting ----------------------------------------

  predicate Leap(y: int) { y % 4 == 0 && (y % 100 != 0 || y % 400 == 0) }

  function YearLength(y: int): int { if Leap(y) then 366 else 365 }

  function MonthLength(y: int, m: int): int {
    if m == 2 then (if Leap(y) then 29 else 28) else if m == 4 || m == 6 || m == 9 || m == 11 then 30 else 31
  }

  predicate Valid(d: Date) { 1 <= d.month <= 12 && 1 <= d.day <= MonthLength(d.year, d.month) }

  /** Days from the first of January of year 0 to that of year `y`. */
  function DaysToYear(y: int): int
    decreases if y >= 0 then y else -y
  {
    if y == 0 then 0 else if y > 0 then DaysToYear(y - 1) + YearLength(y - 1) else DaysToYear(y + 1) - YearLength(y)
  }

  /** Days from the first of January to the first of month `m`. */
  function DaysToMonth(y: int, m: int): int
    requires 1 <= m <= 13
  {
    if m == 1 then 0 else DaysToMonth(y, m - 1) + MonthLength(y, m - 1)
  }

  /** Days from the first of January 1970, counted year by year and month by month. */
  function DayNumber(d: Date): int
    requires Valid(d)
  {
    DaysToYear(d.year) + DaysToMonth(d.year, d.month) + d.day - 1 - DaysToYear(1970)
  }

  function NextDay(d: Date): Date {
    if d.day < MonthLength(d.year, d.month) then d.(day := d.day + 1)
    else if d.month < 12 then Date(d.year, d.month + 1, 1)
    else Date(d.year + 1, 1, 1)
  }

  predicate Before(a: Date, b: Date) {
    a.year < b.year || (a.year == b.year && (a.month < b.month || (a.month == b.month && a.day < b.day)))
  }

  // ---- counting in closed form ------------------------------------------

  /** How many multiples of 4, of 100 and of 400 there are from year 0 to before `y`. */
  function Fours(y: int): int { (y + 3) / 4 }
  function Hundreds(y: int): int { (y + 99) / 100 }
  function FourHundreds(y: int): int { (y + 399) / 400 }

  lemma FoursStep(y: int)
    ensures Fours(y + 1) == Fours(y) + if y % 4 == 0 then 1 else 0
  {
  }

  lemma HundredsStep(y: int)
    ensures Hundreds(y + 1) == Hundreds(y) + if y % 100 == 0 then 1 else 0
  {
  }

  lemma FourHundredsStep(y: int)
    ensures FourHundreds(y + 1) == FourHundreds(y) + if y % 400 == 0 then 1 else 0
  {
  }

  lemma Divides(y: int)
    ensures (y % 400 == 0 ==> y % 100 == 0) && (y % 100 == 0 ==> y % 4 == 0)
  {
  }

  /** A step of the three counts is a leap day or none. */
  lemma LeapSum(four: bool, hundred: bool, fourHundred: bool)
    requires (fourHundred ==> hundred) && (hundred ==> four)
    ensures (if four then 1 else 0) - (if hundred then 1 else 0) + (if fourHundred then 1 else 0)
         == if four && (!hundred || fourHundred) then 1 else 0
  {
  }

  /** A year adds a day to the counts exactly when it is leap. */
  lemma LeapStep(y: int)
    ensures (Fours(y + 1) - Hundreds(y + 1) + FourHundreds(y + 1)) - (Fours(y) - Hundreds(y) + FourHundreds(y))
         == YearLength(y) - 365
  {
    FoursStep(y);
    HundredsStep(y);
    FourHundredsStep(y);
    Divides(y);
    LeapSum(y % 4 == 0, y % 100 == 0, y % 400 == 0);
  }

  lemma {:induction false} DaysToYearIs(y: int)
    ensures DaysToYear(y) == 365 * y + Fours(y) - Hundreds(y) + FourHundreds(y)
    decreases if y >= 0 then y else -y
  {
    if y > 0 {
      DaysToYearIs(y - 1);
      LeapStep(y - 1);
    } else if y < 0 {
      DaysToYearIs(y + 1);
      LeapStep(y);
    }
  }

  lemma QuotientIs(a: int, b: int, q: int)
    requires b > 0 && q * b <= a < q * b + b
    ensures a / b == q
  {
    var r := a / b;
    assert a == r * b + a % b;
    if r < q { Times(r, q, b); }
    if r > q { Times(q, r, b); }
  }

  lemma DaysToMonthIs(y: int, m: int)
    requires 1 <= m <= 13
    ensures DaysToMonth(y, m) ==
      (if m > 2 then YearLength(y) - 365 else 0)
      + match m
        case 1 => 0 case 2 => 31 case 3 => 59 case 4 => 90 case 5 => 120 case 6 => 151 case 7 => 181
        case 8 => 212 case 9 => 243 case 10 => 273 case 11 => 304 case 12 => 334 case _ => 365
  {
    if m > 1 { DaysToMonthIs(y, m - 1); }
  }

  // ---- the year of the era ----------------------------------------------

  /** A day of an era as centuries, four-year groups, years and days left: years run
      from March, so that a leap day is the last of its year. */
  predicate Splits(doe: nat, c: nat, q: nat, k: nat, t: nat) {
    && doe == 36524 * c + 1461 * q + 365 * k + t && c <= 3 && q <= 24 && k <= 3 && t <= 365
    && (t == 365 ==> k == 3 && (q == 24 ==> c == 3))
  }

  lemma Split(doe: nat) returns (c: nat, q: nat, k: nat, t: nat)
    requires doe < ERA
    ensures Splits(doe, c, q, k, t)
  {
    c := if doe / 36524 > 3 then 3 else doe / 36524;
    var r := doe - 36524 * c;
    q := r / 1461;
    var s := r - 1461 * q;
    k := if s / 365 > 3 then 3 else s / 365;
    t := s - 365 * k;
  }

  function Carry(c: nat, q: nat, k: nat, t: nat): nat { if 24 * c + q + 365 * k + t >= 1460 then 1 else 0 }
  function Last(doe: nat): nat { if doe == 146096 then 1 else 0 }

  lemma By1460(doe: nat, c: nat, q: nat, k: nat, t: nat)
    requires Splits(doe, c, q, k, t)
    ensures doe / 1460 == 25 * c + q + Carry(c, q, k, t)
  {
    QuotientIs(doe, 1460, 25 * c + q + Carry(c, q, k, t));
  }

  lemma By36524(doe: nat, c: nat, q: nat, k: nat, t: nat)
    requires Splits(doe, c, q, k, t)
    ensures doe / 36524 == c + Last(doe) && doe / 146096 == Last(doe)
  {
    QuotientIs(doe, 36524, c + Last(doe));
    QuotientIs(doe, 146096, Last(doe));
  }

  lemma By365(n: int, y: int, rest: int)
    requires n == 365 * y + rest && 0 <= rest < 365
    ensures n / 365 == y
  {
    QuotientIs(n, 365, y);
  }

  lemma ByYears(c: nat, q: nat, k: nat)
    requires q <= 24 && k <= 3
    ensures (100 * c + 4 * q + k) / 4 == 25 * c + q && (100 * c + 4 * q + k) / 100 == c
  {
    QuotientIs(100 * c + 4 * q + k, 4, 25 * c + q);
    QuotientIs(100 * c + 4 * q + k, 100, c);
  }

  lemma YearOfEraIs(doe: nat, c: nat, q: nat, k: nat, t: nat)
    requires Splits(doe, c, q, k, t)
    ensures YearOfEra(doe) == 100 * c + 4 * q + k
  {
    By1460(doe, c, q, k, t);
    By36524(doe, c, q, k, t);
    By365(doe - doe / 1460 + doe / 36524 - doe / 146096, 100 * c + 4 * q + k, t - Carry(c, q, k, t));
  }

  lemma DayOfYearIs(doe: nat, c: nat, q: nat, k: nat, t: nat)
    requires Splits(doe, c, q, k, t)
    ensures DayOfYear(doe, 100 * c + 4 * q + k) == t
  {
    ByYears(c, q, k);
  }

  // ---- the month of the year --------------------------------------------

  /** Where a month starts in a year that begins with March. */
  function MarchStart(mp: int): int { (153 * mp + 2) / 5 }

  lemma MonthPartIs(doy: nat)
    requires doy <= 365
    ensures 0 <= MonthPart(doy) <= 11
    ensures MarchStart(MonthPart(doy)) <= doy
    ensures MonthPart(doy) < 11 ==> doy < MarchStart(MonthPart(doy) + 1)
  {
  }

  lemma MarchStarts()
    ensures MarchStart(0) == 0 && MarchStart(1) == 31 && MarchStart(2) == 61 && MarchStart(3) == 92
    ensures MarchStart(4) == 122 && MarchStart(5) == 153 && MarchStart(6) == 184 && MarchStart(7) == 214
    ensures MarchStart(8) == 245 && MarchStart(9) == 275 && MarchStart(10) == 306 && MarchStart(11) == 337
  {
  }

  /** Months from March on are where counting puts them. */
  lemma MarchYear(y: int, mp: int)
    requires 0 <= mp <= 11
    ensures mp < 10 ==> DaysToMonth(y, mp + 3) == MarchStart(mp) + 59 + (YearLength(y) - 365)
    ensures mp >= 10 ==> DaysToMonth(y, mp - 9) == MarchStart(mp) - 306
    ensures mp < 10 ==> MarchStart(mp + 1) - MarchStart(mp) == MonthLength(y, mp + 3)
    ensures mp == 10 ==> MarchStart(11) - MarchStart(10) == MonthLength(y, 1)
    ensures mp == 11 ==> MonthLength(y, 2) == 28 + (YearLength(y) - 365)
  {
    MarchStarts();
    if mp < 10 { DaysToMonthIs(y, mp + 3); } else { DaysToMonthIs(y, mp - 9); }
  }

  // ---- the conversion is right ------------------------------------------

  lemma RemainderIs(a: int, b: int, q: int, r: int)
    requires b > 0 && a == q * b + r && 0 <= r < b
    ensures a % b == r
  {
    QuotientIs(a, b, q);
  }

  /** A year of a century, by its remainders. */
  lemma LeapOf(era: int, c: int, r: int)
    requires 0 <= c <= 3 && 0 <= r < 100
    ensures Leap(400 * era + 100 * c + r) <==> r % 4 == 0 && (r == 0 ==> c == 0)
  {
    var y := 400 * era + 100 * c + r;
    RemainderIs(y, 4, 100 * era + 25 * c + r / 4, r % 4);
    RemainderIs(y, 100, 4 * era + c, r);
    RemainderIs(y, 400, era, 100 * c + r);
  }

  lemma LeapIs(era: int, c: nat, q: nat, k: nat)
    requires c <= 3 && q <= 24 && k <= 3
    ensures var y := 400 * era + 100 * c + 4 * q + k;
      Leap(y + 1) <==> k == 3 && (q == 24 ==> c == 3)
  {
    var r := 4 * q + k + 1;
    if r < 100 {
      LeapOf(era, c, r);
    } else if c < 3 {
      LeapOf(era, c + 1, 0);
    } else {
      LeapOf(era + 1, 0, 0);
    }
  }

  lemma CountsAt(era: int, c: nat, q: nat, k: nat)
    requires c <= 3 && q <= 24 && k <= 3
    ensures var y := 400 * era + 100 * c + 4 * q + k;
      Fours(y + 1) == 100 * era + 25 * c + q + 1 && Hundreds(y + 1) == 4 * era + c + 1 && FourHundreds(y + 1) == era + 1
  {
    var y := 400 * era + 100 * c + 4 * q + k;
    QuotientIs(y + 4, 4, 100 * era + 25 * c + q + 1);
    QuotientIs(y + 100, 100, 4 * era + c + 1);
    QuotientIs(y + 400, 400, era + 1);
  }

  lemma YearAdds(y: int)
    ensures DaysToYear(y + 1) == DaysToYear(y) + YearLength(y)
  {
    DaysToYearIs(y);
    DaysToYearIs(y + 1);
    LeapStep(y);
  }

  /** The first of March of year `400 * era + y`, counted. */
  lemma MarchOfYear(era: int, c: nat, q: nat, k: nat)
    requires c <= 3 && q <= 24 && k <= 3
    ensures var y := 400 * era + 100 * c + 4 * q + k;
      && DaysToYear(y) + (YearLength(y) - 365) == ERA * era + 36524 * c + 1461 * q + 365 * k + 1
      && DaysToYear(y + 1) == ERA * era + 36524 * c + 1461 * q + 365 * k + 366
  {
    var y := 400 * era + 100 * c + 4 * q + k;
    DaysToYearIs(y + 1);
    CountsAt(era, c, q, k);
    YearAdds(y);
  }

  lemma InEra(days: int) returns (era: int, doe: nat)
    ensures days + EPOCH == ERA * era + doe && doe < ERA
    ensures CivilFromDays(days) == DateIn(era, YearOfEra(doe), DayOfYear(doe, YearOfEra(doe)))
  {
    hide EraOf, DayOfYear, YearOfEra, DateIn;
    var z := days + EPOCH;
    EraBounds(z);
    era, doe := EraOf(z), z - EraOf(z) * ERA;
  }

  /** The parts of a day: its era and the day of the era, split. */
  lemma CivilParts(days: int) returns (era: int, c: nat, q: nat, k: nat, t: nat)
    ensures days + EPOCH == ERA * era + 36524 * c + 1461 * q + 365 * k + t
    ensures Splits(36524 * c + 1461 * q + 365 * k + t, c, q, k, t)
    ensures CivilFromDays(days) == DateIn(era, 100 * c + 4 * q + k, t)
  {
    hide CivilFromDays, EraOf, DayOfYear, YearOfEra, DateIn;
    var doe;
    era, doe := InEra(days);
    c, q, k, t := Split(doe);
    YearOfEraIs(doe, c, q, k, t);
    DayOfYearIs(doe, c, q, k, t);
  }

  lemma MarchToDecember(y: int, mp: int, t: int)
    requires 0 <= mp < 10 && MarchStart(mp) <= t < MarchStart(mp + 1)
    ensures var d := Date(y, mp + 3, t - MarchStart(mp) + 1);
      Valid(d) && DaysToMonth(y, d.month) + d.day - 1 == t + 59 + (YearLength(y) - 365)
  {
    MarchYear(y, mp);
  }

  lemma JanuaryFebruary(y: int, mp: int, t: int)
    requires 10 <= mp <= 11 && MarchStart(mp) <= t <= 365
    requires (mp == 10 ==> t < MarchStart(11)) && (t == 365 ==> Leap(y))
    ensures var d := Date(y, mp - 9, t - MarchStart(mp) + 1);
      Valid(d) && DaysToMonth(y, d.month) + d.day - 1 == t - 306
  {
    MarchYear(y, mp);
    MarchStarts();
  }

  lemma EpochYear()
    ensures DaysToYear(1970) == 719528
  {
    DaysToYearIs(1970);
  }

  lemma DateIsRight(era: int, c: nat, q: nat, k: nat, t: nat)
    requires Splits(36524 * c + 1461 * q + 365 * k + t, c, q, k, t)
    ensures var d := DateIn(era, 100 * c + 4 * q + k, t);
      Valid(d) && DayNumber(d) == ERA * era + 36524 * c + 1461 * q + 365 * k + t - EPOCH
  {
    var y := 400 * era + 100 * c + 4 * q + k;
    MonthPartIs(t);
    MarchOfYear(era, c, q, k);
    EpochYear();
    if MonthPart(t) < 10 {
      MarchToDecember(y, MonthPart(t), t);
    } else {
      LeapIs(era, c, q, k);
      JanuaryFebruary(y + 1, MonthPart(t), t);
    }
  }

  /** The date is a date, and counting from the epoch to it gives the day back: for
      every day, before the epoch too. */
  lemma CivilIsRight(days: int)
    ensures Valid(CivilFromDays(days)) && DayNumber(CivilFromDays(days)) == days
  {
    var era, c, q, k, t := CivilParts(days);
    DateIsRight(era, c, q, k, t);
  }

  // ---- order ------------------------------------------------------------

  lemma {:induction false} DaysToYearMonotone(a: int, b: int)
    requires a <= b
    ensures DaysToYear(a) + 365 * (b - a) <= DaysToYear(b)
    decreases b - a
  {
    if a < b {
      DaysToYearMonotone(a, b - 1);
      DaysToYearIs(b);
      DaysToYearIs(b - 1);
      LeapStep(b - 1);
    }
  }

  lemma MonthFits(d: Date)
    requires Valid(d)
    ensures 0 <= DaysToMonth(d.year, d.month) + d.day - 1 < YearLength(d.year)
    ensures d.month < 12 ==> DaysToMonth(d.year, d.month) + d.day <= DaysToMonth(d.year, d.month + 1)
  {
    DaysToMonthIs(d.year, d.month);
    DaysToMonthIs(d.year, d.month + 1);
  }

  lemma {:induction false} DaysToMonthMonotone(y: int, a: int, b: int)
    requires 1 <= a <= b <= 13
    ensures DaysToMonth(y, a) <= DaysToMonth(y, b)
    decreases b - a
  {
    if a < b { DaysToMonthMonotone(y, a, b - 1); }
  }

  /** Counting agrees with the order of dates. */
  lemma BeforeIsLess(a: Date, b: Date)
    requires Valid(a) && Valid(b) && Before(a, b)
    ensures DayNumber(a) < DayNumber(b)
  {
    MonthFits(a);
    MonthFits(b);
    if a.year < b.year {
      DaysToYearMonotone(a.year + 1, b.year);
      DaysToYearIs(a.year);
      DaysToYearIs(a.year + 1);
      LeapStep(a.year);
    } else if a.month < b.month {
      DaysToMonthMonotone(a.year, a.month + 1, b.month);
    }
  }

  /** A later day has a later date. */
  lemma CivilMonotone(a: int, b: int)
    requires a < b
    ensures Before(CivilFromDays(a), CivilFromDays(b))
  {
    CivilIsRight(a);
    CivilIsRight(b);
    var x, y := CivilFromDays(a), CivilFromDays(b);
    if Before(y, x) { BeforeIsLess(y, x); }
    assert !Before(y, x) && x != y;
  }

  lemma CivilOfEpoch()
    ensures CivilFromDays(0) == Date(1970, 1, 1)
  {
  }

  /** Day 0 is the first of January 1970, and the date of the next day is the next
      date: which fixes the date of every day. */
  lemma CivilNext(days: int)
    ensures CivilFromDays(0) == Date(1970, 1, 1)
    ensures CivilFromDays(days + 1) == NextDay(CivilFromDays(days))
  {
    CivilOfEpoch();
    var d := CivilFromDays(days);
    CivilIsRight(days);
    CivilIsRight(days + 1);
    NextCounts(d);
    var e, n := CivilFromDays(days + 1), NextDay(d);
    if Before(e, n) { BeforeIsLess(e, n); }
    if Before(n, e) { BeforeIsLess(n, e); }
    assert !Before(e, n) && !Before(n, e);
  }

  lemma NextCounts(d: Date)
    requires Valid(d)
    ensures Valid(NextDay(d)) && DayNumber(NextDay(d)) == DayNumber(d) + 1
  {
    if d.month == 12 {
      YearAdds(d.year);
      DaysToMonthIs(d.year, 12);
    }
  }
}
