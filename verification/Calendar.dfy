/** The date arithmetic of `fmt_epoch` (src/admin_extra.rs): civil-from-days on
    signed 64-bit integers, whose division truncates toward zero. */
module Calendar {

  datatype Date = Date(year: int, month: int, day: int)

  datatype Stamp = Stamp(date: Date, hour: int, minute: int)

  /** The machine's division: toward zero, unlike Dafny's. */
  function TruncDiv(a: int, b: int): int
    requires b > 0
  {
    if a >= 0 then a / b else -((-a) / b)
  }

  function EraOf(z: int): int {
    TruncDiv(if z >= 0 then z else z - 146_096, 146_097)
  }

  function YearOfEra(doe: int): int {
    TruncDiv(doe - TruncDiv(doe, 1460) + TruncDiv(doe, 36_524) - TruncDiv(doe, 146_096), 365)
  }

  /** Day `doy` of the year that starts on 1 March `y`. */
  function MarchDate(y: int, doy: int): Date {
    var mp := TruncDiv(5 * doy + 2, 153);
    var d := doy - TruncDiv(153 * mp + 2, 5) + 1;
    var m := if mp < 10 then mp + 3 else mp - 9;
    Date(if m <= 2 then y + 1 else y, m, d)
  }

  function DaysBeforeYearOfEra(yoe: int): int {
    365 * yoe + TruncDiv(yoe, 4) - TruncDiv(yoe, 100)
  }

  function CivilOfEra(era: int, doe: int): Date {
    var yoe := YearOfEra(doe);
    MarchDate(yoe + era * 400, doe - DaysBeforeYearOfEra(yoe))
  }

  function CivilFromDays(days: int): Date {
    var z := days + 719_468;
    var era := EraOf(z);
    CivilOfEra(era, z - era * 146_097)
  }

  /** `div_euclid` and `rem_euclid` are Dafny's own operators; the rest of the time
      of day is never negative. */
  function FmtEpoch(secs: int): Stamp {
    var tod := secs % 86_400;
    Stamp(CivilFromDays(secs / 86_400), tod / 3600, (tod % 3600) / 60)
  }

  // ------------------------------------------- the calendar, independently

  predicate IsLeap(y: int) {
    y % 4 == 0 && (y % 100 != 0 || y % 400 == 0)
  }

  function DaysInMonth(y: int, m: int): int {
    if m == 2 then (if IsLeap(y) then 29 else 28)
    else if m == 4 || m == 6 || m == 9 || m == 11 then 30
    else 31
  }

  predicate IsDate(d: Date) {
    1 <= d.month <= 12 && 1 <= d.day <= DaysInMonth(d.year, d.month)
  }

  function NextDay(d: Date): Date {
    if d.day < DaysInMonth(d.year, d.month) then d.(day := d.day + 1)
    else if d.month < 12 then Date(d.year, d.month + 1, 1)
    else Date(d.year + 1, 1, 1)
  }

  predicate Before(a: Date, b: Date) {
    a.year < b.year
    || (a.year == b.year && (a.month < b.month || (a.month == b.month && a.day < b.day)))
  }

  function DaysBeforeMonth(y: int, m: int): int
    requires 1 <= m <= 12
    decreases m
  {
    if m == 1 then 0 else DaysBeforeMonth(y, m - 1) + DaysInMonth(y, m - 1)
  }

  function LeapDaysThrough(y: int): int {
    y / 4 - y / 100 + y / 400
  }

  /** The inverse: days from 1970-01-01 to a date. */
  function DaysFromCivil(d: Date): int
    requires 1 <= d.month <= 12
  {
    var p := d.year - 1;
    365 * p + LeapDaysThrough(p) + DaysBeforeMonth(d.year, d.month) + d.day - 719_163
  }

  // -------------------------------------------------------------- division

  /** The correction by 146096 makes the truncating division round down for
      negative day numbers too. */
  lemma EraIsFloor(z: int)
    ensures EraOf(z) == z / 146_097
    ensures 0 <= z - EraOf(z) * 146_097 < 146_097
  {
    if z < 0 {
      var q, r := z / 146_097, z % 146_097;
      assert 146_096 - z == 146_097 * (-q) + (146_096 - r);
    }
  }

  /** A day of the 400-year era, split into centuries, olympiads, years and a day. */
  lemma SplitEra(doe: int) returns (c: int, q: int, r: int, doy: int)
    requires 0 <= doe < 146_097
    ensures 0 <= c <= 3 && 0 <= q <= 24 && 0 <= r <= 3 && 0 <= doy <= 365
    ensures doe == 36_524 * c + 1461 * q + 365 * r + doy
    ensures doy == 365 ==> r == 3 && (q < 24 || c == 3)
  {
    c := if doe / 36_524 < 3 then doe / 36_524 else 3;
    var inCentury := doe - 36_524 * c;
    q := inCentury / 1461;
    var inOlympiad := inCentury - 1461 * q;
    r := if inOlympiad / 365 < 3 then inOlympiad / 365 else 3;
    doy := inOlympiad - 365 * r;
  }

  lemma YearOfEraIsRight(doe: int, c: int, q: int, r: int, doy: int)
    requires 0 <= c <= 3 && 0 <= q <= 24 && 0 <= r <= 3 && 0 <= doy <= 365
    requires doe == 36_524 * c + 1461 * q + 365 * r + doy
    requires doy == 365 ==> r == 3 && (q < 24 || c == 3)
    ensures YearOfEra(doe) == 100 * c + 4 * q + r
  {
    var rest := 24 * c + q + 365 * r + doy;
    var e := if rest >= 1460 then 1 else 0;
    assert doe == 1460 * (25 * c + q) + rest;
    assert doe / 1460 == 25 * c + q + e;
    var last := c == 3 && q == 24 && r == 3 && doy == 365;
    assert doe / 36_524 == c + if last then 1 else 0;
    assert doe / 146_096 == if last then 1 else 0;
    assert doe - doe / 1460 + doe / 36_524 - doe / 146_096 == 365 * (100 * c + 4 * q + r) + (doy - e);
    assert 0 <= doy - e < 365;
  }

  /** Days from 1 March to the start of the month `mp` months later. */
  function MarchDays(mp: int): int {
    (153 * mp + 2) / 5
  }

  lemma MonthOfYearIsRight(doy: int)
    requires 0 <= doy <= 365
    ensures var mp := (5 * doy + 2) / 153;
            0 <= mp <= 11 && MarchDays(mp) <= doy < MarchDays(mp + 1)
  {
  }

  /** Day counts from 1 March against the months of the ordinary year. */
  lemma MonthStarts(y: int, mp: int)
    requires 0 <= mp <= 11
    ensures mp < 10 ==> DaysBeforeMonth(y, mp + 3) == MarchDays(mp) + 59 + (if IsLeap(y) then 1 else 0)
    ensures mp < 10 ==> DaysInMonth(y, mp + 3) == MarchDays(mp + 1) - MarchDays(mp)
    ensures mp == 10 ==> DaysBeforeMonth(y, mp - 9) == 0 && MarchDays(mp) == 306 && DaysInMonth(y, mp - 9) == 31
    ensures mp == 11 ==> DaysBeforeMonth(y, mp - 9) == 31 && MarchDays(mp) == 337
  {
    assert DaysBeforeMonth(y, 1) == 0 && DaysBeforeMonth(y, 2) == 31;
    assert DaysBeforeMonth(y, 3) == 59 + if IsLeap(y) then 1 else 0;
    assert DaysBeforeMonth(y, 4) == DaysBeforeMonth(y, 3) + 31 && DaysBeforeMonth(y, 5) == DaysBeforeMonth(y, 3) + 61;
    assert DaysBeforeMonth(y, 6) == DaysBeforeMonth(y, 5) + 31 && DaysBeforeMonth(y, 7) == DaysBeforeMonth(y, 5) + 61;
    assert DaysBeforeMonth(y, 8) == DaysBeforeMonth(y, 7) + 31 && DaysBeforeMonth(y, 9) == DaysBeforeMonth(y, 7) + 62;
    assert DaysBeforeMonth(y, 10) == DaysBeforeMonth(y, 9) + 30 && DaysBeforeMonth(y, 11) == DaysBeforeMonth(y, 9) + 61;
    assert DaysBeforeMonth(y, 12) == DaysBeforeMonth(y, 11) + 30;
  }

  /** Whole eras drop out of the leap-year divisions. */
  lemma EraShift(n: int, era: int)
    ensures (n + era * 400) / 4 == n / 4 + era * 100 && (n + era * 400) % 4 == n % 4
    ensures (n + era * 400) / 100 == n / 100 + era * 4 && (n + era * 400) % 100 == n % 100
    ensures (n + era * 400) / 400 == n / 400 + era && (n + era * 400) % 400 == n % 400
  {
  }

  /** `year` counts from the start of its era. */
  lemma LeapInEra(c: int, q: int, r: int)
    requires 0 <= c <= 3 && 0 <= q <= 24 && 0 <= r <= 3
    ensures var n := 100 * c + 4 * q + r;
            && n / 4 == 25 * c + q && n % 4 == r && n / 100 == c && n % 100 == 4 * q + r && n / 400 == 0 && n % 400 == n
            && (IsLeap(n + 1) <==> r == 3 && (q < 24 || c == 3))
  {
  }

  lemma LeapOfEra(era: int, c: int, q: int, r: int)
    requires 0 <= c <= 3 && 0 <= q <= 24 && 0 <= r <= 3
    ensures IsLeap(100 * c + 4 * q + r + era * 400 + 1) <==> r == 3 && (q < 24 || c == 3)
  {
    LeapInEra(c, q, r);
    EraShift(100 * c + 4 * q + r + 1, era);
  }

  /** Leap days through the year before the era year `y`, and through `y` itself. */
  lemma LeapDaysInEra(era: int, c: int, q: int, r: int)
    requires 0 <= c <= 3 && 0 <= q <= 24 && 0 <= r <= 3
    ensures LeapDaysThrough(100 * c + 4 * q + r + era * 400) == 97 * era + 24 * c + q
  {
    LeapInEra(c, q, r);
    EraShift(100 * c + 4 * q + r, era);
  }

  lemma LeapDaysGrow(y: int)
    ensures LeapDaysThrough(y) == LeapDaysThrough(y - 1) + if IsLeap(y) then 1 else 0
  {
    assert y / 4 == (y - 1) / 4 + if y % 4 == 0 then 1 else 0;
    assert y / 100 == (y - 1) / 100 + if y % 100 == 0 then 1 else 0;
    assert y / 400 == (y - 1) / 400 + if y % 400 == 0 then 1 else 0;
    assert y % 100 == 0 ==> y % 4 == 0;
    assert y % 400 == 0 ==> y % 100 == 0;
  }

  lemma MarchDateIsRight(y: int, doy: int)
    requires 0 <= doy <= 365 && (doy == 365 ==> IsLeap(y + 1))
    ensures IsDate(MarchDate(y, doy))
    ensures DaysFromCivil(MarchDate(y, doy)) == 365 * y + LeapDaysThrough(y) + doy - 719_468
  {
    var mp := (5 * doy + 2) / 153;
    MonthOfYearIsRight(doy);
    MonthStarts(if mp < 10 then y else y + 1, mp);
    LeapDaysGrow(y);
  }

  lemma CivilIsMarchDate(era: int, doe: int, c: int, q: int, r: int, doy: int)
    requires 0 <= c <= 3 && 0 <= q <= 24 && 0 <= r <= 3 && 0 <= doy <= 365
    requires doe == 36_524 * c + 1461 * q + 365 * r + doy
    requires doy == 365 ==> r == 3 && (q < 24 || c == 3)
    ensures CivilOfEra(era, doe) == MarchDate(100 * c + 4 * q + r + era * 400, doy)
  {
    var n := 100 * c + 4 * q + r;
    YearOfEraIsRight(doe, c, q, r, doy);
    assert DaysBeforeYearOfEra(n) == doe - doy by { LeapInEra(c, q, r); }
  }

  lemma EraDateIsRight(era: int, c: int, q: int, r: int, doy: int)
    requires 0 <= c <= 3 && 0 <= q <= 24 && 0 <= r <= 3 && 0 <= doy <= 365
    requires doy == 365 ==> r == 3 && (q < 24 || c == 3)
    ensures var d := MarchDate(100 * c + 4 * q + r + era * 400, doy);
            IsDate(d)
            && DaysFromCivil(d) == era * 146_097 + 36_524 * c + 1461 * q + 365 * r + doy - 719_468
  {
    LeapOfEra(era, c, q, r);
    LeapDaysInEra(era, c, q, r);
    MarchDateIsRight(100 * c + 4 * q + r + era * 400, doy);
  }

  // ---------------------------------------------------------- main results

  /** Every day number, however negative: a real calendar date comes out, and
      counting back from it gives the same day number. */
  lemma CivilIsValidAndInvertible(days: int)
    ensures IsDate(CivilFromDays(days))
    ensures DaysFromCivil(CivilFromDays(days)) == days
  {
    var z := days + 719_468;
    EraIsFloor(z);
    var era := EraOf(z);
    var doe := z - era * 146_097;
    var c, q, r, doy := SplitEra(doe);
    CivilIsMarchDate(era, doe, c, q, r, doy);
    EraDateIsRight(era, c, q, r, doy);
  }

  lemma {:induction false} MonthsInOrder(y: int, m: int, n: int)
    requires 1 <= m < n <= 12
    ensures DaysBeforeMonth(y, m) + DaysInMonth(y, m) <= DaysBeforeMonth(y, n)
    decreases n
  {
    if m < n - 1 {
      MonthsInOrder(y, m, n - 1);
    }
  }

  lemma NewYear(y: int)
    ensures DaysFromCivil(Date(y, 12, 31)) + 1 == DaysFromCivil(Date(y + 1, 1, 1))
  {
    LeapDaysGrow(y);
    MonthStarts(y, 9);
    assert DaysBeforeMonth(y + 1, 1) == 0 && DaysBeforeMonth(y, 12) == 334 + if IsLeap(y) then 1 else 0;
  }

  lemma {:induction false} YearsInOrder(y: int, z: int)
    requires y < z
    ensures DaysFromCivil(Date(y, 12, 31)) < DaysFromCivil(Date(z, 1, 1))
    decreases z - y
  {
    NewYear(y);
    if y + 1 < z {
      YearsInOrder(y + 1, z);
      MonthsInOrder(y + 1, 1, 12);
    }
  }

  lemma WithinYear(d: Date)
    requires IsDate(d)
    ensures DaysFromCivil(Date(d.year, 1, 1)) <= DaysFromCivil(d) <= DaysFromCivil(Date(d.year, 12, 31))
  {
    if d.month > 1 { MonthsInOrder(d.year, 1, d.month); }
    if d.month < 12 { MonthsInOrder(d.year, d.month, 12); }
  }

  lemma EarlierDateFewerDays(a: Date, b: Date)
    requires IsDate(a) && IsDate(b) && Before(a, b)
    ensures DaysFromCivil(a) < DaysFromCivil(b)
  {
    if a.year < b.year {
      WithinYear(a);
      WithinYear(b);
      YearsInOrder(a.year, b.year);
    } else if a.month < b.month {
      MonthsInOrder(a.year, a.month, b.month);
    }
  }

  /** A date is its day number: no date is skipped and none is produced twice. */
  lemma CivilInvertsDays(d: Date, n: int)
    requires IsDate(d) && DaysFromCivil(d) == n
    ensures CivilFromDays(n) == d
  {
    CivilIsValidAndInvertible(n);
    var c := CivilFromDays(n);
    if Before(c, d) {
      EarlierDateFewerDays(c, d);
    } else if Before(d, c) {
      EarlierDateFewerDays(d, c);
    }
  }

  lemma LaterDaysLaterDates(m: int, n: int)
    ensures m < n <==> Before(CivilFromDays(m), CivilFromDays(n))
  {
    CivilIsValidAndInvertible(m);
    CivilIsValidAndInvertible(n);
    var a, b := CivilFromDays(m), CivilFromDays(n);
    if Before(a, b) {
      EarlierDateFewerDays(a, b);
    } else if Before(b, a) {
      EarlierDateFewerDays(b, a);
    }
  }

  lemma NextDayCountsOne(d: Date)
    requires IsDate(d)
    ensures IsDate(NextDay(d)) && DaysFromCivil(NextDay(d)) == DaysFromCivil(d) + 1
  {
    if d.month == 12 && d.day == 31 {
      NewYear(d.year);
    }
  }

  /** The algorithm is the calendar: every next day is the next date, and (by
      EpochIsDayZero) the count starts on 1 January 1970. */
  lemma CivilFollowsTheCalendar(days: int)
    ensures CivilFromDays(days + 1) == NextDay(CivilFromDays(days))
  {
    var d := CivilFromDays(days);
    CivilIsValidAndInvertible(days);
    NextDayCountsOne(d);
    CivilInvertsDays(NextDay(d), days + 1);
  }

  lemma EpochIsDayZero()
    ensures CivilFromDays(0) == Date(1970, 1, 1)
  {
    assert DaysFromCivil(Date(1970, 1, 1)) == 0;
    CivilInvertsDays(Date(1970, 1, 1), 0);
  }

  /** The stamp names the minute the second falls in, before the epoch too. */
  lemma StampNamesItsMinute(secs: int)
    ensures var s := FmtEpoch(secs);
            && IsDate(s.date) && 0 <= s.hour < 24 && 0 <= s.minute < 60
            && 86_400 * DaysFromCivil(s.date) + 3600 * s.hour + 60 * s.minute <= secs
               < 86_400 * DaysFromCivil(s.date) + 3600 * s.hour + 60 * s.minute + 60
  {
    CivilIsValidAndInvertible(secs / 86_400);
  }

  predicate FitsI64(x: int) {
    -0x8000_0000_0000_0000 <= x < 0x8000_0000_0000_0000
  }

  /** The intermediates of the year: from the shifted day number to the day of the year. */
  lemma YearFits(era: int, doe: int)
    requires -0x1_0000_0000 <= era <= 0x1_0000_0000 && 0 <= doe < 146_097
    ensures FitsI64(doe - TruncDiv(doe, 1460) + TruncDiv(doe, 36_524) - TruncDiv(doe, 146_096))
    ensures var yoe := YearOfEra(doe);
            && FitsI64(yoe + era * 400 + 1) && FitsI64(365 * yoe + TruncDiv(yoe, 4) - TruncDiv(yoe, 100))
            && 0 <= doe - DaysBeforeYearOfEra(yoe) <= 365
  {
    var c, q, r, doy := SplitEra(doe);
    YearOfEraIsRight(doe, c, q, r, doy);
    LeapInEra(c, q, r);
  }

  /** And those of the month and the day. */
  lemma MonthFits(doy: int)
    requires 0 <= doy <= 365
    ensures var mp := TruncDiv(5 * doy + 2, 153);
            && FitsI64(5 * doy + 2) && FitsI64(153 * mp + 2) && FitsI64(doy - TruncDiv(153 * mp + 2, 5) + 1)
            && 0 <= mp <= 11
  {
    MonthOfYearIsRight(doy);
  }

  /** On 64-bit inputs no intermediate of the computation overflows 64 bits. */
  lemma NoOverflow(secs: int)
    requires FitsI64(secs)
    ensures var z := secs / 86_400 + 719_468;
            var era := EraOf(z);
            var doe := z - era * 146_097;
            var yoe := YearOfEra(doe);
            var doy := doe - DaysBeforeYearOfEra(yoe);
            var mp := TruncDiv(5 * doy + 2, 153);
            && FitsI64(z) && FitsI64(z - 146_096) && FitsI64(era * 146_097) && FitsI64(doe)
            && FitsI64(doe - TruncDiv(doe, 1460) + TruncDiv(doe, 36_524) - TruncDiv(doe, 146_096))
            && FitsI64(era * 400) && FitsI64(yoe + era * 400 + 1)
            && FitsI64(365 * yoe + TruncDiv(yoe, 4) - TruncDiv(yoe, 100))
            && FitsI64(doy) && FitsI64(5 * doy + 2) && FitsI64(153 * mp + 2)
            && FitsI64(doy - TruncDiv(153 * mp + 2, 5) + 1)
  {
    var z := secs / 86_400 + 719_468;
    EraIsFloor(z);
    var doe := z - EraOf(z) * 146_097;
    YearFits(EraOf(z), doe);
    MonthFits(doe - DaysBeforeYearOfEra(YearOfEra(doe)));
  }
}
