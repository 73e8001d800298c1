/**
 Gregorian dates: the closed-form conversion from a day number, against a calendar that only
 knows the leap rule and counts year by year and month by month.
 */
module Calendar {

  // ----- The calendar itself -----

  datatype Date = Date(year: int, month: int, day: int)

  predicate IsLeap(y: int) {
    y % 4 == 0 && (y % 100 != 0 || y % 400 == 0)
  }

  function YearLength(y: int): int {
    if IsLeap(y) then 366 else 365
  }

  function MonthLength(y: int, m: int): int {
    if m == 2 then (if IsLeap(y) then 29 else 28)
    else if m == 4 || m == 6 || m == 9 || m == 11 then 30
    else 31
  }

  predicate ValidDate(d: Date) {
    1 <= d.month <= 12 && 1 <= d.day <= MonthLength(d.year, d.month)
  }

  /** The day after, as a wall calendar turns its pages. */
  function Tomorrow(d: Date): Date {
    if d.day < MonthLength(d.year, d.month) then Date(d.year, d.month, d.day + 1)
    else if d.month < 12 then Date(d.year, d.month + 1, 1)
    else Date(d.year + 1, 1, 1)
  }

  /** Day number of 1 January, counting whole years from 1970. */
  function YearStart(y: int): int
    decreases if y >= 1970 then y - 1970 else 1970 - y
  {
    if y == 1970 then 0
    else if y > 1970 then YearStart(y - 1) + YearLength(y - 1)
    else YearStart(y + 1) - YearLength(y)
  }

  /** Days of the year before the first of the month. */
  function MonthStart(y: int, m: int): int
    requires 1 <= m <= 13
    decreases m
  {
    if m == 1 then 0 else MonthStart(y, m - 1) + MonthLength(y, m - 1)
  }

  /** Days since 1 January 1970, by counting. */
  function DayNumber(d: Date): int
    requires 1 <= d.month <= 12
  {
    YearStart(d.year) + MonthStart(d.year, d.month) + d.day - 1
  }

  // ----- The conversion -----

  function YearOfEra(doe: int): int {
    (doe - doe / 1_460 + doe / 36_524 - doe / 146_096) / 365
  }

  function EraDays(yoe: int): int {
    365 * yoe + yoe / 4 - yoe / 100
  }

  /** `civil_date_from_days`. */
  function CivilFromDays(days: int): Date {
    var shifted := days + 719_468;
    var era := shifted / 146_097;
    CivilOfEra(era, shifted - era * 146_097)
  }

  function CivilOfEra(era: int, doe: int): Date {
    var yoe := YearOfEra(doe);
    FromMarch(yoe + era * 400, doe - EraDays(yoe))
  }

  /** Day `doy` of the year that begins on the first of March of year `y`. */
  function FromMarch(y: int, doy: int): Date {
    var mp := (5 * doy + 2) / 153;
    var day := doy - (153 * mp + 2) / 5 + 1;
    var month := mp + (if mp < 10 then 3 else -9);
    Date(y + (if month <= 2 then 1 else 0), month, day)
  }

  // ----- Years within an era -----

  /** A day of an era is century `c`, four-year cycle `q`, year `k` and day `t`. */
  lemma EraSplit(doe: int) returns (c: int, q: int, k: int, t: int)
    requires 0 <= doe < 146_097
    ensures doe == 36_524 * c + 1_461 * q + 365 * k + t
    ensures 0 <= c <= 3 && 0 <= q <= 24 && 0 <= k <= 3 && 0 <= t <= 365
    ensures t == 365 ==> k == 3 && (q == 24 ==> c == 3)
    ensures doe / 36_524 - doe / 146_096 == c
  {
    c := if doe == 146_096 then 3 else doe / 36_524;
    var r := doe - 36_524 * c;
    q := r / 1_461;
    var s := r - 1_461 * q;
    k := if s == 1_460 then 3 else s / 365;
    t := s - 365 * k;
  }

  lemma YearOfEraIs(c: int, q: int, k: int, t: int)
    requires 0 <= c <= 3 && 0 <= q <= 24 && 0 <= k <= 3 && 0 <= t <= 365 && (t == 365 ==> k == 3)
    requires var doe := 36_524 * c + 1_461 * q + 365 * k + t;
             doe / 36_524 - doe / 146_096 == c
    ensures YearOfEra(36_524 * c + 1_461 * q + 365 * k + t) == 100 * c + 4 * q + k
  {
    var doe := 36_524 * c + 1_461 * q + 365 * k + t;
    var extra := 24 * c + q + 365 * k + t;
    assert doe == 1_460 * (25 * c + q) + extra && 0 <= extra < 2_920;
    var carry := if extra >= 1_460 then 1 else 0;
    assert doe / 1_460 == 25 * c + q + carry;
    assert 0 <= t - carry < 365;
    assert doe - doe / 1_460 + c == 365 * (100 * c + 4 * q + k) + (t - carry);
  }

  lemma EraDaysIs(c: int, q: int, k: int)
    requires 0 <= c <= 3 && 0 <= q <= 24 && 0 <= k <= 3
    ensures EraDays(100 * c + 4 * q + k) == 36_524 * c + 1_461 * q + 365 * k
  {
    assert (100 * c + 4 * q + k) / 4 == 25 * c + q;
    assert (100 * c + 4 * q + k) / 100 == c;
  }

  lemma LeapAtEnd(c: int, q: int)
    requires 0 <= c <= 3 && 0 <= q <= 24 && (q == 24 ==> c == 3)
    ensures IsLeap(100 * c + 4 * q + 3 + 1)
  {
    var y := 100 * c + 4 * q + 4;
    assert y == 4 * (25 * c + q + 1);
    assert q < 24 ==> y == 100 * c + (4 * q + 4) && 0 < 4 * q + 4 < 100;
  }

  /** The year within the era is the one whose days contain `doe`. */
  lemma YearOfEraBounds(doe: int)
    requires 0 <= doe < 146_097
    ensures 0 <= YearOfEra(doe) <= 399
    ensures 0 <= doe - EraDays(YearOfEra(doe)) <= 365
    ensures doe - EraDays(YearOfEra(doe)) == 365 ==> IsLeap(YearOfEra(doe) + 1)
  {
    var c, q, k, t := EraSplit(doe);
    YearOfEraIs(c, q, k, t);
    EraDaysIs(c, q, k);
    if t == 365 {
      LeapAtEnd(c, q);
    }
  }

  lemma MonthFromDay(doy: int)
    requires 0 <= doy <= 365
    ensures var mp := (5 * doy + 2) / 153;
            0 <= mp <= 11 && (153 * mp + 2) / 5 <= doy
            && doy < if mp == 11 then 366 else (153 * (mp + 1) + 2) / 5
  {
  }

  // ----- Counting in closed form -----

  function LeapsThrough(y: int): int {
    y / 4 - y / 100 + y / 400
  }

  lemma Quarters(y: int)
    ensures y / 4 == (y - 1) / 4 + (if y % 4 == 0 then 1 else 0)
  {
  }

  lemma Centuries(y: int)
    ensures y / 100 == (y - 1) / 100 + (if y % 100 == 0 then 1 else 0)
  {
  }

  lemma Eras(y: int)
    ensures y / 400 == (y - 1) / 400 + (if y % 400 == 0 then 1 else 0)
  {
  }

  lemma CenturiesAreQuarters(y: int)
    ensures y % 100 == 0 ==> y % 4 == 0
  {
    assert y == 4 * (25 * (y / 100)) + y % 100;
  }

  lemma ErasAreCenturies(y: int)
    ensures y % 400 == 0 ==> y % 100 == 0
  {
    assert y == 100 * (4 * (y / 400)) + y % 400;
  }

  lemma LeapsStep(y: int)
    ensures LeapsThrough(y) == LeapsThrough(y - 1) + (if IsLeap(y) then 1 else 0)
  {
    Quarters(y);
    Centuries(y);
    Eras(y);
    CenturiesAreQuarters(y);
    ErasAreCenturies(y);
  }

  lemma {:induction false} YearStartClosed(y: int)
    ensures YearStart(y) == 365 * (y - 1970) + LeapsThrough(y - 1) - 477
    decreases if y >= 1970 then y - 1970 else 1970 - y
  {
    if y > 1970 {
      YearStartClosed(y - 1);
      LeapsStep(y - 1);
    } else if y < 1970 {
      YearStartClosed(y + 1);
      LeapsStep(y);
    }
  }

  lemma YearsFollow(y: int)
    ensures YearStart(y + 1) == YearStart(y) + YearLength(y)
  {
    YearStartClosed(y);
    YearStartClosed(y + 1);
    LeapsStep(y);
  }

  lemma MonthStarts(y: int)
    ensures MonthStart(y, 2) == 31
    ensures forall m :: 3 <= m <= 13 ==> MonthStart(y, m) == MonthStart(y, 3) + (153 * (m - 3) + 2) / 5
    ensures MonthStart(y, 3) == YearLength(y) - 306 && MonthStart(y, 13) == YearLength(y)
  {
    assert MonthStart(y, 4) == MonthStart(y, 3) + 31 && MonthStart(y, 5) == MonthStart(y, 4) + 30;
    assert MonthStart(y, 6) == MonthStart(y, 5) + 31 && MonthStart(y, 7) == MonthStart(y, 6) + 30;
    assert MonthStart(y, 8) == MonthStart(y, 7) + 31 && MonthStart(y, 9) == MonthStart(y, 8) + 31;
    assert MonthStart(y, 10) == MonthStart(y, 9) + 30 && MonthStart(y, 11) == MonthStart(y, 10) + 31;
    assert MonthStart(y, 12) == MonthStart(y, 11) + 30 && MonthStart(y, 13) == MonthStart(y, 12) + 31;
  }

  /** Day number of the first of March of year `yoe` of an era. */
  lemma MarchFirst(era: int, yoe: int)
    requires 0 <= yoe <= 399
    ensures var y := yoe + era * 400;
            YearStart(y) + MonthStart(y, 3) == era * 146_097 + EraDays(yoe) - 719_468
  {
    var y := yoe + era * 400;
    YearStartClosed(y);
    LeapsStep(y);
    MonthStarts(y);
    assert y / 4 == 100 * era + yoe / 4;
    assert y / 100 == 4 * era + yoe / 100;
    assert y / 400 == era;
  }

  // ----- The conversion is right -----

  lemma Modulo4(y: int, k: int)
    ensures (y + 4 * k) % 4 == y % 4
  {
  }

  lemma Modulo100(y: int, k: int)
    ensures (y + 100 * k) % 100 == y % 100
  {
  }

  lemma Modulo400(y: int, k: int)
    ensures (y + 400 * k) % 400 == y % 400
  {
  }

  lemma LeapInEra(era: int, y: int)
    ensures IsLeap(y + era * 400) == IsLeap(y)
  {
    Modulo4(y, 100 * era);
    Modulo100(y, 4 * era);
    Modulo400(y, era);
  }

  lemma FromMarchCounts(y: int, doy: int)
    requires 0 <= doy <= 365 && (doy == 365 ==> IsLeap(y + 1))
    ensures ValidDate(FromMarch(y, doy))
    ensures DayNumber(FromMarch(y, doy)) == YearStart(y) + MonthStart(y, 3) + doy
  {
    MonthFromDay(doy);
    if (5 * doy + 2) / 153 < 10 {
      MonthStarts(y);
    } else {
      MonthStarts(y);
      MonthStarts(y + 1);
      YearsFollow(y);
    }
  }

  lemma YearInEraCountsBack(era: int, yoe: int, doy: int)
    requires 0 <= yoe <= 399 && 0 <= doy <= 365 && (doy == 365 ==> IsLeap(yoe + 1))
    ensures ValidDate(FromMarch(yoe + era * 400, doy))
    ensures DayNumber(FromMarch(yoe + era * 400, doy)) == era * 146_097 + EraDays(yoe) + doy - 719_468
  {
    var y := yoe + era * 400;
    LeapInEra(era, yoe + 1);
    MarchFirst(era, yoe);
    assert y + 1 == yoe + 1 + era * 400;
    FromMarchCounts(y, doy);
  }

  lemma EraCountsBack(era: int, doe: int)
    requires 0 <= doe < 146_097
    ensures ValidDate(CivilOfEra(era, doe))
    ensures DayNumber(CivilOfEra(era, doe)) == era * 146_097 + doe - 719_468
  {
    YearOfEraBounds(doe);
    YearInEraCountsBack(era, YearOfEra(doe), doe - EraDays(YearOfEra(doe)));
  }

  /** Every day number becomes a real date that counts back to it. */
  lemma CivilCountsBack(days: int)
    ensures ValidDate(CivilFromDays(days))
    ensures DayNumber(CivilFromDays(days)) == days
  {
    var shifted := days + 719_468;
    EraCountsBack(shifted / 146_097, shifted - shifted / 146_097 * 146_097);
  }

  predicate Earlier(d: Date, e: Date) {
    d.year < e.year || (d.year == e.year && (d.month < e.month || (d.month == e.month && d.day < e.day)))
  }

  lemma {:induction false} YearsAscend(y: int, z: int)
    requires y <= z
    ensures YearStart(y) + 365 * (z - y) <= YearStart(z)
    decreases z - y
  {
    if y < z {
      YearsAscend(y, z - 1);
      YearsFollow(z - 1);
    }
  }

  lemma {:induction false} MonthsAscend(y: int, m: int, n: int)
    requires 1 <= m < n <= 13
    ensures MonthStart(y, m) + MonthLength(y, m) <= MonthStart(y, n)
    decreases n
  {
    if m < n - 1 {
      MonthsAscend(y, m, n - 1);
    }
  }

  lemma EarlierCountsLess(d: Date, e: Date)
    requires ValidDate(d) && ValidDate(e) && Earlier(d, e)
    ensures DayNumber(d) < DayNumber(e)
  {
    if d.year < e.year {
      MonthsAscend(d.year, d.month, 13);
      MonthStarts(d.year);
      YearsFollow(d.year);
      YearsAscend(d.year + 1, e.year);
      if e.month > 1 {
        MonthsAscend(e.year, 1, e.month);
      }
    } else if d.month < e.month {
      MonthsAscend(d.year, d.month, e.month);
    }
  }

  /** The conversion is the exact inverse of counting. */
  lemma CivilInvertsCounting(d: Date)
    requires ValidDate(d)
    ensures CivilFromDays(DayNumber(d)) == d
  {
    var e := CivilFromDays(DayNumber(d));
    CivilCountsBack(DayNumber(d));
    if Earlier(d, e) {
      EarlierCountsLess(d, e);
    } else if Earlier(e, d) {
      EarlierCountsLess(e, d);
    }
  }

  lemma NewYear(y: int)
    ensures DayNumber(Date(y + 1, 1, 1)) == DayNumber(Date(y, 12, 31)) + 1
  {
    YearsFollow(y);
    MonthStarts(y);
    assert MonthStart(y, 13) == MonthStart(y, 12) + 31;
  }

  lemma TomorrowCountsOne(d: Date)
    requires ValidDate(d)
    ensures ValidDate(Tomorrow(d)) && DayNumber(Tomorrow(d)) == DayNumber(d) + 1
  {
    if d.day == MonthLength(d.year, d.month) && d.month == 12 {
      NewYear(d.year);
    }
  }

  lemma FollowedByTomorrow(d: Date, days: int)
    requires ValidDate(d) && DayNumber(d) == days
    ensures CivilFromDays(days + 1) == Tomorrow(d)
  {
    TomorrowCountsOne(d);
    CivilInvertsCounting(Tomorrow(d));
  }

  /** The next day number is the next page of the calendar. */
  lemma NextDayIsTomorrow(days: int)
    ensures CivilFromDays(days + 1) == Tomorrow(CivilFromDays(days))
  {
    CivilCountsBack(days);
    FollowedByTomorrow(CivilFromDays(days), days);
  }

  /** Later days are later dates, and the other way round. */
  lemma CivilKeepsOrder(m: int, n: int)
    ensures m < n <==> Earlier(CivilFromDays(m), CivilFromDays(n))
  {
    CivilCountsBack(m);
    CivilCountsBack(n);
    var d, e := CivilFromDays(m), CivilFromDays(n);
    if Earlier(d, e) {
      EarlierCountsLess(d, e);
    } else if Earlier(e, d) {
      EarlierCountsLess(e, d);
    }
  }
}
