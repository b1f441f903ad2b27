/** The closed-form civil calendar of the real-time clock, against a naive day count built from
    the Gregorian leap rule (section 3.2.1 of ISO 8601:2004). */
module Calendar {
  /** C integer division: truncates toward zero. */
  function TruncDiv(a: int, b: int): int
    requires b > 0
  {
    if a >= 0 then a / b else -((-a) / b)
  }

  datatype Date = Date(year: int, month: int, day: int)

  // ------------------------------------------------------- the closed forms

  /** Years run from March 1, so that the leap day comes last. */
  function MarchYear(t: Date): int {
    if t.month <= 2 then t.year - 1 else t.year
  }

  function DayOfMarchYear(m: int, d: int): int {
    (153 * (m + (if m > 2 then -3 else 9)) + 2) / 5 + d - 1
  }

  /** Days of an era of 400 March years before its year `yoe`. */
  function EraDays(yoe: int): int {
    365 * yoe + yoe / 4 - yoe / 100
  }

  function DaysFromCivil(t: Date): int {
    var y := MarchYear(t);
    var era := TruncDiv(if y >= 0 then y else y - 399, 400);
    var yoe := y - era * 400;
    var doe := EraDays(yoe) + DayOfMarchYear(t.month, t.day);
    era * 146097 + doe - 719468
  }

  function YearOfEra(doe: int): int {
    (doe - doe / 1460 + doe / 36524 - doe / 146096) / 365
  }

  /** Day `doy` of March year `y`. */
  function DateInMarchYear(y: int, doy: int): Date {
    var mp := (5 * doy + 2) / 153;
    var m := mp + (if mp < 10 then 3 else -9);
    Date(y + (if m <= 2 then 1 else 0), m, doy - (153 * mp + 2) / 5 + 1)
  }

  /** Day `doe` of era `era`. */
  function DateInEra(era: int, doe: int): Date {
    var yoe := YearOfEra(doe);
    DateInMarchYear(yoe + era * 400, doe - EraDays(yoe))
  }

  function EraOf(z: int): int {
    TruncDiv(if z >= 0 then z else z - 146096, 146097)
  }

  function CivilFromDays(days: int): Date {
    var z := days + 719468;
    DateInEra(EraOf(z), z - EraOf(z) * 146097)
  }

  /** 0 = Sunday. */
  function WdayOf(days: int): int {
    var w := (days + 4) - 7 * TruncDiv(days + 4, 7);
    if w < 0 then w + 7 else w
  }

  // ------------------------------------------------------- the naive calendar

  predicate Leap(y: int) {
    y % 4 == 0 && (y % 100 != 0 || y % 400 == 0)
  }

  function YearLength(y: int): int {
    if Leap(y) then 366 else 365
  }

  function MonthLength(y: int, m: int): int {
    if m == 2 then (if Leap(y) then 29 else 28)
    else if m == 4 || m == 6 || m == 9 || m == 11 then 30
    else 31
  }

  predicate ValidDate(t: Date) {
    1 <= t.month <= 12 && 1 <= t.day <= MonthLength(t.year, t.month)
  }

  /** Days from 1970-01-01 to January 1 of year `y`, one year at a time. */
  function DaysToYear(y: int): int
    decreases if y >= 1970 then y - 1970 else 1970 - y
  {
    if y == 1970 then 0
    else if y > 1970 then DaysToYear(y - 1) + YearLength(y - 1)
    else DaysToYear(y + 1) - YearLength(y)
  }

  /** Days from January 1 to the first of month `m`, one month at a time. */
  function DaysToMonth(y: int, m: int): int
    requires 1 <= m <= 12
    decreases m, y
  {
    if m == 1 then 0 else DaysToMonth(y, m - 1) + MonthLength(y, m - 1)
  }

  function NaiveDays(t: Date): int
    requires ValidDate(t)
  {
    DaysToYear(t.year) + DaysToMonth(t.year, t.month) + t.day - 1
  }

  // ---------------------------------------------------------------- floors

  /** The era division is a floor division. */
  lemma EraIsFloor(y: int, n: int)
    requires n > 0
    ensures TruncDiv(if y >= 0 then y else y - (n - 1), n) == y / n
  {
    if y < 0 {
      var q := y / n;
      assert y == q * n + y % n;
      var k := -(y - (n - 1));
      assert k == (-q) * n + (n - 1 - y % n);
      DivUnique(k, n, -q, n - 1 - y % n);
    }
  }

  lemma MulBound(n: int, k: int)
    requires n > 0
    ensures k >= 1 ==> n * k >= n
    ensures k <= -1 ==> n * k <= -n
  {
    if k >= 1 {
      assert n * (k - 1) >= 0;
    } else if k <= -1 {
      assert n * (-1 - k) >= 0;
    }
  }

  lemma EuclidUnique(n: int, q0: int, r0: int, q1: int, r1: int)
    requires n > 0 && n * q0 + r0 == n * q1 + r1 && 0 <= r0 < n && 0 <= r1 < n
    ensures q0 == q1 && r0 == r1
  {
    var k := q1 - q0;
    assert n * k == n * q1 - n * q0;
    MulBound(n, k);
  }

  lemma DivUnique(a: int, n: int, q: int, r: int)
    requires n > 0 && a == n * q + r && 0 <= r < n
    ensures a / n == q && a % n == r
  {
    EuclidUnique(n, a / n, a % n, q, r);
  }

  lemma StepDiv(y: int, n: int)
    requires n > 1
    ensures y / n - (y - 1) / n == if y % n == 0 then 1 else 0
  {
    var q, r := y / n, y % n;
    if r == 0 {
      DivUnique(y - 1, n, q - 1, n - 1);
    } else {
      DivUnique(y - 1, n, q, r - 1);
    }
  }

  /** Days before March 1 of the `y`-th March-based year, counted from year 0. */
  function MarchYears(y: int): int {
    365 * y + y / 4 - y / 100 + y / 400
  }

  lemma EraSplit(y: int)
    ensures var era := y / 400; var yoe := y - era * 400;
            && 0 <= yoe < 400
            && era * 146097 + EraDays(yoe) == MarchYears(y)
  {
    var era := y / 400;
    var yoe := y - era * 400;
    DivUnique(y, 4, 100 * era + yoe / 4, yoe % 4);
    DivUnique(y, 100, 4 * era + yoe / 100, yoe % 100);
  }

  lemma MarchYearLength(y: int)
    ensures MarchYears(y) - MarchYears(y - 1) == YearLength(y)
  {
    StepDiv(y, 4);
    StepDiv(y, 100);
    StepDiv(y, 400);
    if y % 400 == 0 {
      DivUnique(y, 100, 4 * (y / 400), 0);
    }
    if y % 100 == 0 {
      DivUnique(y, 4, 25 * (y / 100), 0);
    }
  }

  // --------------------------------------------------- exactness of the count

  lemma {:induction false} YearsExact(y: int)
    ensures DaysToYear(y) == MarchYears(y - 1) + 306 - 719468
    decreases if y >= 1970 then y - 1970 else 1970 - y
  {
    if y > 1970 {
      YearsExact(y - 1);
      MarchYearLength(y - 1);
    } else if y < 1970 {
      YearsExact(y + 1);
      MarchYearLength(y);
    }
  }

  lemma MonthsExact(y: int, m: int)
    requires 1 <= m <= 12
    ensures DaysToMonth(y, m) ==
            if m > 2 then 59 + (YearLength(y) - 365) + (153 * (m - 3) + 2) / 5
            else (153 * (m + 9) + 2) / 5 - 306
  {
    if m > 1 {
      MonthsExact(y, m - 1);
    }
  }

  /** days_from_civil is the naive day count, for every valid date of every year. */
  lemma DaysFromCivilExact(t: Date)
    requires ValidDate(t)
    ensures DaysFromCivil(t) == NaiveDays(t)
  {
    var y := MarchYear(t);
    EraSplit(y);
    DaysShape(t, y / 400, y - y / 400 * 400);
    YearsExact(t.year);
    MarchYearLength(t.year);
    MonthsExact(t.year, t.month);
  }

  // ------------------------------------------------------------ the inverse

  /** The March-based year `yoe` of an era ends with a February 29. */
  predicate LongYear(yoe: int) {
    yoe % 4 == 3 && (yoe % 100 == 99 ==> yoe == 399)
  }

  /** Day `doe` of an era is day `doy` of its year `yoe`. */
  predicate InEra(doe: int, yoe: int, doy: int) {
    && 0 <= yoe < 400 && 0 <= doy <= 365
    && doe == EraDays(yoe) + doy
    && (doy == 365 ==> LongYear(yoe))
  }

  /** Every day of an era has a year: divide by centuries, four-year groups, years. */
  lemma FindYear(doe: int) returns (yoe: int, doy: int)
    requires 0 <= doe < 146097
    ensures InEra(doe, yoe, doy)
  {
    var c := if doe == 146096 then 3 else doe / 36524;
    var x := doe - 36524 * c;
    var q := x / 1461;
    var w := x - 1461 * q;
    var r := if w == 1460 then 3 else w / 365;
    doy := w - 365 * r;
    yoe := 100 * c + 4 * q + r;
    YearSplit(yoe, c, q, r);
  }

  lemma YearSplit(yoe: int, c: int, q: int, r: int)
    requires yoe == 100 * c + 4 * q + r && 0 <= c <= 3 && 0 <= q <= 24 && 0 <= r <= 3
    ensures EraDays(yoe) == 36524 * c + 1461 * q + 365 * r
    ensures LongYear(yoe) <==> r == 3 && (q == 24 ==> c == 3)
  {
    DivUnique(yoe, 4, 25 * c + q, r);
    DivUnique(yoe, 100, c, 4 * q + r);
  }

  /** The year-of-era formula inverts EraDays. */
  lemma YearFormula(doe: int, yoe: int, doy: int)
    requires InEra(doe, yoe, doy)
    ensures YearOfEra(doe) == yoe
  {
    var c, q, r := yoe / 100, yoe % 100 / 4, yoe % 100 % 4;
    YearSplit(yoe, c, q, r);
    YearArithmetic(doe, c, q, r, doy);
  }

  lemma YearArithmetic(doe: int, c: int, q: int, r: int, doy: int)
    requires 0 <= c <= 3 && 0 <= q <= 24 && 0 <= r <= 3 && 0 <= doy <= 365
    requires doe == 36524 * c + 1461 * q + 365 * r + doy
    requires doy == 365 ==> r == 3 && (q == 24 ==> c == 3)
    ensures (doe - doe / 1460 + doe / 36524 - doe / 146096) / 365 == 100 * c + 4 * q + r
  {
    var yoe := 100 * c + 4 * q + r;
    var x := 24 * c + q + 365 * r + doy;
    var t := if x >= 1460 then 1 else 0;
    DivUnique(doe, 1460, 25 * c + q + t, x - 1460 * t);
    if doe == 146096 {
      DivUnique(365 * yoe + doy - t, 365, yoe, doy - t);
    } else {
      DivUnique(doe, 36524, c, doe - 36524 * c);
      DivUnique(365 * yoe + doy - t, 365, yoe, doy - t);
    }
  }

  /** A day of a March year has a date whose day of the year it is. */
  lemma DateThenDay(y: int, doy: int)
    requires 0 <= doy <= 365 && (doy == 365 ==> Leap(y + 1))
    ensures var t := DateInMarchYear(y, doy);
            ValidDate(t) && MarchYear(t) == y && DayOfMarchYear(t.month, t.day) == doy
  {
  }

  /** A valid date is the date of its day of the March year. */
  lemma DayThenDate(t: Date)
    requires ValidDate(t)
    ensures var doy := DayOfMarchYear(t.month, t.day);
            && 0 <= doy <= 365 && (doy == 365 ==> Leap(MarchYear(t) + 1))
            && DateInMarchYear(MarchYear(t), doy) == t
  {
  }

  lemma LeapOf(era: int, yoe: int)
    requires 0 <= yoe < 400
    ensures Leap(era * 400 + yoe + 1) <==> LongYear(yoe)
  {
    var n := yoe + 1;
    var y := era * 400 + n;
    DivUnique(y, 4, era * 100 + n / 4, n % 4);
    DivUnique(y, 100, era * 4 + n / 100, n % 100);
    DivUnique(y, 400, era + n / 400, n % 400);
  }

  lemma EraOfDays(z: int)
    ensures EraOf(z) == z / 146097 && z - EraOf(z) * 146097 == z % 146097
  {
    EraIsFloor(z, 146097);
  }

  lemma DateInEraShape(era: int, doe: int, yoe: int, doy: int)
    requires InEra(doe, yoe, doy)
    ensures DateInEra(era, doe) == DateInMarchYear(yoe + era * 400, doy)
  {
    YearFormula(doe, yoe, doy);
    assert doe - EraDays(yoe) == doy;
  }

  /** days_from_civil, given the date's March year. */
  lemma DaysShape(t: Date, era: int, yoe: int)
    requires MarchYear(t) == era * 400 + yoe && 0 <= yoe < 400
    ensures DaysFromCivil(t) == era * 146097 + EraDays(yoe) + DayOfMarchYear(t.month, t.day) - 719468
  {
    EraIsFloor(era * 400 + yoe, 400);
    DivUnique(era * 400 + yoe, 400, era, yoe);
  }

  /** Where civil_from_days finds a day: its era, year of the era and day of the year. */
  lemma DateOfDays(days: int) returns (era: int, yoe: int, doy: int)
    ensures 0 <= yoe < 400 && 0 <= doy <= 365 && (doy == 365 ==> Leap(yoe + era * 400 + 1))
    ensures days == era * 146097 + EraDays(yoe) + doy - 719468
    ensures CivilFromDays(days) == DateInMarchYear(yoe + era * 400, doy)
  {
    var z := days + 719468;
    EraOfDays(z);
    era := z / 146097;
    var doe := z % 146097;
    yoe, doy := FindYear(doe);
    DateInEraShape(era, doe, yoe, doy);
    LeapOf(era, yoe);
  }

  lemma DaysOfParts(era: int, yoe: int, doy: int)
    requires 0 <= yoe < 400 && 0 <= doy <= 365 && (doy == 365 ==> Leap(yoe + era * 400 + 1))
    ensures var t := DateInMarchYear(yoe + era * 400, doy);
            ValidDate(t) && DaysFromCivil(t) == era * 146097 + EraDays(yoe) + doy - 719468
  {
    DateThenDay(yoe + era * 400, doy);
    DaysShape(DateInMarchYear(yoe + era * 400, doy), era, yoe);
  }

  /** civil_from_days always gives a valid date, and days_from_civil takes it back to the day. */
  lemma CivilThenDays(days: int)
    ensures ValidDate(CivilFromDays(days))
    ensures DaysFromCivil(CivilFromDays(days)) == days
  {
    var era, yoe, doy := DateOfDays(days);
    DaysOfParts(era, yoe, doy);
  }

  /** civil_from_days of a day put together from era, year and day of the year. */
  lemma DateOfParts(days: int, era: int, yoe: int, doy: int)
    requires 0 <= yoe < 400 && 0 <= doy <= 365 && (doy == 365 ==> LongYear(yoe))
    requires days + 719468 == era * 146097 + EraDays(yoe) + doy
    ensures CivilFromDays(days) == DateInMarchYear(yoe + era * 400, doy)
  {
    var doe := EraDays(yoe) + doy;
    EraDaysBound(yoe, doy);
    EraOfDays(days + 719468);
    DivUnique(days + 719468, 146097, era, doe);
    DateInEraShape(era, doe, yoe, doy);
  }

  /** days_from_civil then civil_from_days gives back every valid date. */
  lemma DaysThenCivil(t: Date)
    requires ValidDate(t)
    ensures CivilFromDays(DaysFromCivil(t)) == t
  {
    var era, yoe := MarchYear(t) / 400, MarchYear(t) % 400;
    var doy := DayOfMarchYear(t.month, t.day);
    DayThenDate(t);
    LeapOf(era, yoe);
    DaysShape(t, era, yoe);
    DateOfParts(DaysFromCivil(t), era, yoe, doy);
  }

  lemma EraDaysBound(yoe: int, doy: int)
    requires 0 <= yoe < 400 && 0 <= doy <= 365 && (doy == 365 ==> LongYear(yoe))
    ensures 0 <= EraDays(yoe) + doy < 146097
  {
  }

  // ------------------------------------------------------------- consequences

  /** Later dates have later day numbers, and conversely. */
  lemma DaysInjective(a: Date, b: Date)
    requires ValidDate(a) && ValidDate(b)
    ensures DaysFromCivil(a) == DaysFromCivil(b) <==> a == b
  {
    DaysThenCivil(a);
    DaysThenCivil(b);
  }

  lemma WeekdayAdvances(days: int)
    ensures 0 <= WdayOf(days) < 7
    ensures WdayOf(days + 1) == (WdayOf(days) + 1) % 7
    ensures WdayOf(0) == 4
  {
    WdayIsFloorMod(days);
    WdayIsFloorMod(days + 1);
  }

  lemma WdayIsFloorMod(days: int)
    ensures WdayOf(days) == (days + 4) % 7
  {
    var x := days + 4;
    if x < 0 {
      var k := (-x) / 7;
      var w := x + 7 * k;
      if w < 0 {
        DivUnique(x, 7, -k - 1, w + 7);
      } else {
        DivUnique(x, 7, -k, w);
      }
    }
  }
}
