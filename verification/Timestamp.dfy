/**
 UTC timestamps as text: the fixed shape of section 5.6 of RFC 3339, reading them back, and the
 sorting property of section 5.1.
 */
module Timestamp {
  import opened Wrappers
  import opened Calendar
  import opened Decimal
  import opened DelimitedText

  /** 9999-12-31T23:59:59Z, the last second with a four-digit year. */
  const LAST_SECOND: int := 253_402_300_799

  // ----- The format -----

  function ClockText(hour: nat, minute: nat, second: nat): string {
    Pad(hour, 2) + (":" + (Pad(minute, 2) + (":" + (Pad(second, 2) + "Z"))))
  }

  function TimeText(secondOfDay: nat): string {
    ClockText(secondOfDay / 3600, secondOfDay % 3600 / 60, secondOfDay % 60)
  }

  function DateText(d: Date, rest: string): string
    requires ValidDate(d)
  {
    PadSigned(d.year, 4) + ("-" + (Pad(d.month, 2) + ("-" + (Pad(d.day, 2) + rest))))
  }

  function InstantText(d: Date, secondOfDay: nat): string
    requires ValidDate(d)
  {
    DateText(d, "T" + TimeText(secondOfDay))
  }

  /** `format_unix_timestamp`. */
  function Format(seconds: int): string {
    CivilCountsBack(seconds / 86_400);
    InstantText(CivilFromDays(seconds / 86_400), seconds % 86_400)
  }

  // ----- Shape and reading back -----

  /** `YYYY-MM-DDTHH:MM:SSZ` with every field in range. */
  predicate IsTimestamp(s: string) {
    && |s| == 20 && AllDigits(s[0..4]) && s[4] == '-' && AllDigits(s[5..7]) && s[7] == '-' && AllDigits(s[8..10])
    && s[10] == 'T' && AllDigits(s[11..13]) && s[13] == ':' && AllDigits(s[14..16]) && s[16] == ':'
    && AllDigits(s[17..19]) && s[19] == 'Z'
    && ValidDate(Date(Value(s[0..4]), Value(s[5..7]), Value(s[8..10])))
    && Value(s[11..13]) < 24 && Value(s[14..16]) < 60 && Value(s[17..19]) < 60
  }

  /** Seconds since the epoch, counted from the fields. */
  function Parse(s: string): Option<int> {
    if !IsTimestamp(s) then None
    else
      Some(86_400 * DayNumber(Date(Value(s[0..4]), Value(s[5..7]), Value(s[8..10])))
           + 3600 * Value(s[11..13]) + 60 * Value(s[14..16]) + Value(s[17..19]))
  }

  lemma LastDay()
    ensures DayNumber(Date(9999, 12, 31)) == 2_932_896 && DayNumber(Date(1970, 1, 1)) == 0
  {
    YearStartClosed(9999);
    MonthStarts(9999);
  }

  lemma DayRange(d: Date)
    requires ValidDate(d) && 0 <= DayNumber(d)
    ensures d.year >= 1970
    ensures d.year <= 9999 <==> DayNumber(d) <= 2_932_896
  {
    var first, last := Date(1970, 1, 1), Date(9999, 12, 31);
    LastDay();
    if Earlier(d, first) {
      EarlierCountsLess(d, first);
    }
    if Earlier(last, d) {
      EarlierCountsLess(last, d);
    } else if Earlier(d, last) {
      EarlierCountsLess(d, last);
    }
  }

  lemma DateRange(seconds: int)
    requires 0 <= seconds
    ensures CivilFromDays(seconds / 86_400).year >= 1970
    ensures CivilFromDays(seconds / 86_400).year <= 9999 <==> seconds <= LAST_SECOND
  {
    var days := seconds / 86_400;
    assert days <= 2_932_896 <==> seconds <= LAST_SECOND;
    CivilCountsBack(days);
    DayRange(CivilFromDays(days));
  }

  lemma TimeSlices(h: string, m: string, sec: string)
    requires |h| == |m| == |sec| == 2
    ensures var s := h + (":" + (m + (":" + (sec + "Z"))));
            && |s| == 9 && s[0..2] == h && s[2] == ':' && s[3..5] == m && s[5] == ':' && s[6..8] == sec && s[8] == 'Z'
  {
  }

  lemma DateSlices(y: string, m: string, d: string, rest: string)
    requires |y| == 4 && |m| == |d| == 2
    ensures var s := y + ("-" + (m + ("-" + (d + rest))));
            && |s| == 10 + |rest| && s[0..4] == y && s[4] == '-' && s[5..7] == m && s[7] == '-' && s[8..10] == d
            && s[10..] == rest
  {
  }

  lemma RestSlices(s: string, rest: string)
    requires |s| == 20 && |rest| == 9 && s[10..] == "T" + rest
    ensures s[10] == 'T' && s[13] == rest[2] && s[16] == rest[5] && s[19] == rest[8]
    ensures s[11..13] == rest[0..2] && s[14..16] == rest[3..5] && s[17..19] == rest[6..8]
  {
    assert forall i :: 0 <= i < 9 ==> rest[i] == s[10..][i + 1] == s[i + 11];
    assert s[10] == s[10..][0];
  }

  /** The pieces of a formatted timestamp. */
  lemma Pieces(d: Date, t: int)
    requires ValidDate(d) && 0 <= d.year <= 9999 && 0 <= t < 86_400
    ensures var s := InstantText(d, t);
            && |s| == 20
            && s[0..4] == Pad(d.year, 4) && s[4] == '-' && s[5..7] == Pad(d.month, 2) && s[7] == '-'
            && s[8..10] == Pad(d.day, 2) && s[10] == 'T' && s[11..13] == Pad(t / 3600, 2) && s[13] == ':'
            && s[14..16] == Pad(t % 3600 / 60, 2) && s[16] == ':' && s[17..19] == Pad(t % 60, 2) && s[19] == 'Z'
  {
    FieldsFit(d, t);
    TimeSlices(Pad(t / 3600, 2), Pad(t % 3600 / 60, 2), Pad(t % 60, 2));
    DateSlices(Pad(d.year, 4), Pad(d.month, 2), Pad(d.day, 2), "T" + TimeText(t));
    RestSlices(InstantText(d, t), TimeText(t));
  }

  lemma TwoDigitsFit(n: nat)
    requires n < 100
    ensures TwoDigits(n)
  {
    assert Pow10(2) == 100;
    PadFits(n, 2);
  }

  lemma ClockFields(t: int)
    requires 0 <= t < 86_400
    ensures 0 <= t / 3600 < 24 && 0 <= t % 3600 / 60 < 60 && 0 <= t % 60 < 60
    ensures t == 3600 * (t / 3600) + 60 * (t % 3600 / 60) + t % 60
  {
  }

  lemma FieldsFit(d: Date, t: int)
    requires ValidDate(d) && 0 <= d.year <= 9999 && 0 <= t < 86_400
    ensures |Pad(d.year, 4)| == 4 && AllDigits(Pad(d.year, 4)) && Value(Pad(d.year, 4)) == d.year
    ensures TwoDigits(d.month) && TwoDigits(d.day)
    ensures 0 <= t / 3600 < 24 && 0 <= t % 3600 / 60 < 60 && 0 <= t % 60 < 60
    ensures TwoDigits(t / 3600) && TwoDigits(t % 3600 / 60) && TwoDigits(t % 60)
    ensures t == 3600 * (t / 3600) + 60 * (t % 3600 / 60) + t % 60
  {
    assert Pow10(4) == 10000;
    PadFits(d.year, 4);
    ClockFields(t);
    TwoDigitsFit(d.month);
    TwoDigitsFit(d.day);
    TwoDigitsFit(t / 3600);
    TwoDigitsFit(t % 3600 / 60);
    TwoDigitsFit(t % 60);
  }

  predicate TwoDigits(n: nat) {
    |Pad(n, 2)| == 2 && AllDigits(Pad(n, 2)) && Value(Pad(n, 2)) == n
  }

  /** What a string holding these fields parses to. */
  lemma ParseFields(s: string, d: Date, t: int)
    requires |s| == 20 && s[4] == '-' && s[7] == '-' && s[10] == 'T' && s[13] == ':' && s[16] == ':' && s[19] == 'Z'
    requires ValidDate(d) && 0 <= t < 86_400
    requires AllDigits(s[0..4]) && AllDigits(s[5..7]) && AllDigits(s[8..10])
    requires AllDigits(s[11..13]) && AllDigits(s[14..16]) && AllDigits(s[17..19])
    requires Value(s[0..4]) == d.year && Value(s[5..7]) == d.month && Value(s[8..10]) == d.day
    requires Value(s[11..13]) == t / 3600 && Value(s[14..16]) == t % 3600 / 60 && Value(s[17..19]) == t % 60
    ensures Parse(s) == Some(86_400 * DayNumber(d) + t)
  {
    assert Date(Value(s[0..4]), Value(s[5..7]), Value(s[8..10])) == d;
  }

  lemma InstantParses(d: Date, t: int, seconds: int)
    requires ValidDate(d) && 0 <= d.year <= 9999 && 0 <= t < 86_400 && seconds == 86_400 * DayNumber(d) + t
    ensures Parse(InstantText(d, t)) == Some(seconds)
  {
    Pieces(d, t);
    FieldsFit(d, t);
    ParseFields(InstantText(d, t), d, t);
  }

  lemma InstantOverflows(d: Date, t: int)
    requires ValidDate(d) && d.year > 9999 && 0 <= t < 86_400
    ensures |InstantText(d, t)| > 20
  {
    assert Pow10(4) == 10_000;
    PadOverflows(d.year, 4);
    TwoDigitsFit(d.month);
    TwoDigitsFit(d.day);
    TimeTextLength(t);
  }

  /** The date written in a timestamp. */
  lemma FormatDate(seconds: int) returns (d: Date, t: int)
    requires 0 <= seconds <= LAST_SECOND
    ensures ValidDate(d) && 0 <= d.year <= 9999 && 0 <= t < 86_400 && seconds == 86_400 * DayNumber(d) + t
    ensures Format(seconds) == InstantText(d, t)
  {
    DateRange(seconds);
    CivilCountsBack(seconds / 86_400);
    d, t := CivilFromDays(seconds / 86_400), seconds % 86_400;
  }

  lemma FormatParses(seconds: int)
    requires 0 <= seconds <= LAST_SECOND
    ensures Parse(Format(seconds)) == Some(seconds)
  {
    var d, t := FormatDate(seconds);
    InstantParses(d, t, seconds);
  }

  lemma OnlyTimestampsParse(s: string)
    requires Parse(s).Some?
    ensures IsTimestamp(s)
  {
  }

  /** Up to the end of year 9999 a timestamp has the fixed shape and reads back to the same second. */
  lemma FormatReadsBack(seconds: int)
    requires 0 <= seconds <= LAST_SECOND
    ensures IsTimestamp(Format(seconds))
    ensures Parse(Format(seconds)) == Some(seconds)
  {
    FormatParses(seconds);
    OnlyTimestampsParse(Format(seconds));
  }

  lemma Assembled(s: string)
    requires |s| == 20 && s[4] == '-' && s[7] == '-' && s[10] == 'T' && s[13] == ':' && s[16] == ':' && s[19] == 'Z'
    ensures var clock := s[11..13] + (":" + (s[14..16] + (":" + (s[17..19] + "Z"))));
            s == s[0..4] + ("-" + (s[5..7] + ("-" + (s[8..10] + ("T" + clock)))))
  {
    var clock := s[11..13] + (":" + (s[14..16] + (":" + (s[17..19] + "Z"))));
    assert clock == s[11..];
    assert "T" + clock == s[10..];
    assert s == s[0..4] + ("-" + (s[5..7] + ("-" + (s[8..10] + s[10..]))));
  }

  lemma ClockValue(hour: nat, minute: nat, second: nat)
    requires hour < 24 && minute < 60 && second < 60
    ensures var t := 3600 * hour + 60 * minute + second;
            t < 86_400 && t / 3600 == hour && t % 3600 / 60 == minute && t % 60 == second
  {
    var t := 3600 * hour + 60 * minute + second;
    assert t % 3600 == 60 * minute + second;
  }

  lemma FormatOf(seconds: int, d: Date, t: int)
    requires ValidDate(d) && 0 <= t < 86_400 && seconds == 86_400 * DayNumber(d) + t
    ensures Format(seconds) == InstantText(d, t)
  {
    assert seconds / 86_400 == DayNumber(d) && seconds % 86_400 == t;
    CivilInvertsCounting(d);
  }

  /** Digits are the text of their value. */
  lemma DigitsAreText(s: string, width: nat)
    requires AllDigits(s) && |s| == width
    ensures s == Pad(Value(s), width)
  {
    ReadsPad(s);
  }

  lemma ClockIsText(h: string, m: string, sec: string)
    requires AllDigits(h) && AllDigits(m) && AllDigits(sec) && |h| == |m| == |sec| == 2
    ensures h + (":" + (m + (":" + (sec + "Z")))) == ClockText(Value(h), Value(m), Value(sec))
  {
    DigitsAreText(h, 2);
    DigitsAreText(m, 2);
    DigitsAreText(sec, 2);
  }

  lemma DateIsText(y: string, m: string, d: string, rest: string)
    requires AllDigits(y) && AllDigits(m) && AllDigits(d) && |y| == 4 && |m| == |d| == 2
    requires ValidDate(Date(Value(y), Value(m), Value(d)))
    ensures y + ("-" + (m + ("-" + (d + rest)))) == DateText(Date(Value(y), Value(m), Value(d)), rest)
  {
    DigitsAreText(y, 4);
    DigitsAreText(m, 2);
    DigitsAreText(d, 2);
  }

  /** Reading and formatting are inverse the other way too: a text that parses is the text of its second. */
  lemma ParsedIsFormatted(s: string)
    requires Parse(s).Some?
    ensures Format(Parse(s).value) == s
  {
    var d := Date(Value(s[0..4]), Value(s[5..7]), Value(s[8..10]));
    var hour, minute, second := Value(s[11..13]), Value(s[14..16]), Value(s[17..19]);
    var t := 3600 * hour + 60 * minute + second;
    assert s == DateText(d, "T" + ClockText(hour, minute, second)) by {
      Assembled(s);
      ClockIsText(s[11..13], s[14..16], s[17..19]);
      DateIsText(s[0..4], s[5..7], s[8..10], "T" + ClockText(hour, minute, second));
    }
    ClockValue(hour, minute, second);
    FormatOf(Parse(s).value, d, t);
  }

  /** And only up to then: the shape holds exactly until the year needs a fifth digit. */
  lemma ShapeHoldsExactlyUntil9999(seconds: int)
    requires 0 <= seconds
    ensures IsTimestamp(Format(seconds)) <==> seconds <= LAST_SECOND
  {
    DateRange(seconds);
    CivilCountsBack(seconds / 86_400);
    if seconds <= LAST_SECOND {
      FormatReadsBack(seconds);
    } else {
      InstantOverflows(CivilFromDays(seconds / 86_400), seconds % 86_400);
    }
  }

  lemma TimeTextLength(t: int)
    requires 0 <= t < 86_400
    ensures |TimeText(t)| == 9
  {
    FieldsFit(Date(1970, 1, 1), t);
  }

  // ----- Order -----

  /** Byte order of two strings. */
  predicate Less(a: string, b: string) {
    b != "" && (a == "" || a[0] < b[0] || (a[0] == b[0] && Less(a[1..], b[1..])))
  }

  lemma {:induction false} LessAfterPrefix(a: string, b: string, c: string, d: string)
    requires |a| == |b|
    ensures Less(a + c, b + d) <==> Less(a, b) || (a == b && Less(c, d))
  {
    if a == "" {
      assert a + c == c && b + d == d;
    } else {
      LessAfterPrefix(a[1..], b[1..], c, d);
      assert (a + c)[1..] == a[1..] + c && (b + d)[1..] == b[1..] + d;
      assert a == b <==> a[0] == b[0] && a[1..] == b[1..] by {
        assert a == [a[0]] + a[1..] && b == [b[0]] + b[1..];
      }
    }
  }

  /** Equal-width digits compare as numbers. */
  lemma {:induction false} PadLess(m: nat, n: nat, width: nat)
    requires m < Pow10(width) && n < Pow10(width)
    ensures Less(Pad(m, width), Pad(n, width)) <==> m < n
    decreases width
  {
    if width > 0 {
      PadLess(m / 10, n / 10, width - 1);
      PadFits(m / 10, width - 1);
      PadFits(n / 10, width - 1);
      LessAfterPrefix(Pad(m / 10, width - 1), Pad(n / 10, width - 1), [Digit(m % 10)], [Digit(n % 10)]);
    }
  }

  /** A fixed-width field decides, and only on a tie does the rest. */
  lemma FieldLess(m: nat, n: nat, width: nat, c: string, d: string)
    requires m < Pow10(width) && n < Pow10(width)
    ensures Less(Pad(m, width) + c, Pad(n, width) + d) <==> m < n || (m == n && Less(c, d))
  {
    PadFits(m, width);
    PadFits(n, width);
    PadLess(m, n, width);
    LessAfterPrefix(Pad(m, width), Pad(n, width), c, d);
  }

  lemma SeparatorLess(x: string, c: string, d: string)
    requires |x| == 1
    ensures Less(x + c, x + d) <==> Less(c, d)
  {
    LessAfterPrefix(x, x, c, d);
  }

  lemma ClockTextLess(h: nat, m: nat, s: nat, h': nat, m': nat, s': nat)
    requires h < 100 && m < 100 && s < 100 && h' < 100 && m' < 100 && s' < 100
    ensures Less(ClockText(h, m, s), ClockText(h', m', s'))
            <==> h < h' || (h == h' && (m < m' || (m == m' && s < s')))
  {
    assert Pow10(2) == 100;
    var t1, u1 := Pad(s, 2) + "Z", Pad(s', 2) + "Z";
    var t2, u2 := Pad(m, 2) + (":" + t1), Pad(m', 2) + (":" + u1);
    FieldLess(s, s', 2, "Z", "Z");
    SeparatorLess(":", t1, u1);
    FieldLess(m, m', 2, ":" + t1, ":" + u1);
    SeparatorLess(":", t2, u2);
    FieldLess(h, h', 2, ":" + t2, ":" + u2);
  }

  lemma TimeTextLess(t: int, u: int)
    requires 0 <= t < 86_400 && 0 <= u < 86_400
    ensures Less(TimeText(t), TimeText(u)) <==> t < u
  {
    ClockFields(t);
    ClockFields(u);
    ClockTextLess(t / 3600, t % 3600 / 60, t % 60, u / 3600, u % 3600 / 60, u % 60);
  }

  lemma DateTextLess(d: Date, e: Date, c: string, f: string)
    requires ValidDate(d) && ValidDate(e) && 0 <= d.year <= 9999 && 0 <= e.year <= 9999
    ensures Less(DateText(d, c), DateText(e, f)) <==> Earlier(d, e) || (d == e && Less(c, f))
  {
    assert Pow10(2) == 100 && Pow10(4) == 10000;
    var d1, e1 := Pad(d.day, 2) + c, Pad(e.day, 2) + f;
    var d2, e2 := Pad(d.month, 2) + ("-" + d1), Pad(e.month, 2) + ("-" + e1);
    FieldLess(d.day, e.day, 2, c, f);
    SeparatorLess("-", d1, e1);
    FieldLess(d.month, e.month, 2, "-" + d1, "-" + e1);
    SeparatorLess("-", d2, e2);
    FieldLess(d.year, e.year, 4, "-" + d2, "-" + e2);
  }

  /** Within the fixed-shape range, sorting timestamps as strings sorts them by time. */
  lemma TextOrderIsTimeOrder(s: int, t: int)
    requires 0 <= s <= LAST_SECOND && 0 <= t <= LAST_SECOND
    ensures Less(Format(s), Format(t)) <==> s < t
  {
    var d, e := CivilFromDays(s / 86_400), CivilFromDays(t / 86_400);
    DateRange(s);
    DateRange(t);
    CivilCountsBack(s / 86_400);
    CivilCountsBack(t / 86_400);
    CivilKeepsOrder(s / 86_400, t / 86_400);
    CivilKeepsOrder(t / 86_400, s / 86_400);
    TimeTextLess(s % 86_400, t % 86_400);
    SeparatorLess("T", TimeText(s % 86_400), TimeText(t % 86_400));
    DateTextLess(d, e, "T" + TimeText(s % 86_400), "T" + TimeText(t % 86_400));
    assert d == e <==> s / 86_400 == t / 86_400;
  }

  // ----- What the state keeps -----

  /** `StateTimestamp::parse`: the punctuation of a date, no control character, and a zone. */
  predicate Kept(s: string) {
    && |s| >= 20 && s[4] == '-' && s[7] == '-' && s[10] == 'T'
    && (forall i :: 0 <= i < |s| ==> !IsControl(s[i]))
    && (s[|s| - 1] == 'Z' || '+' in s[10..] || '-' in s[10..])
  }

  /** Text is refused exactly when it is short, lacks the punctuation or a zone, or holds a control character. */
  lemma KeptMeans(s: string)
    ensures !Kept(s) <==>
              || |s| < 20 || s[4] != '-' || s[7] != '-' || s[10] != 'T'
              || (exists i :: 0 <= i < |s| && (s[i] <= '\U{1F}' || '\U{7F}' <= s[i] <= '\U{9F}'))
              || (s[|s| - 1] != 'Z' && forall i :: 10 <= i < |s| ==> s[i] != '+' && s[i] != '-')
  {
    if |s| >= 20 {
      assert forall i :: 10 <= i < |s| ==> s[i] == s[10..][i - 10];
      assert forall c :: c in s[10..] <==> exists i :: 10 <= i < |s| && s[i] == c;
    }
    assert forall i :: 0 <= i < |s| ==> (IsControl(s[i]) <==> s[i] <= '\U{1F}' || '\U{7F}' <= s[i] <= '\U{9F}');
  }

  /** `current_timestamp` for a clock that shows this many seconds since the epoch. */
  function Current(seconds: nat): Option<string> {
    if Kept(Format(seconds)) then Some(Format(seconds)) else None
  }

  lemma TimestampIsKept(s: string)
    requires IsTimestamp(s)
    ensures Kept(s)
  {
    forall i | 0 <= i < |s|
      ensures !IsControl(s[i])
    {
      if i < 4 {
        assert s[0..4][i] == s[i];
      } else if 5 <= i < 7 {
        assert s[5..7][i - 5] == s[i];
      } else if 8 <= i < 10 {
        assert s[8..10][i - 8] == s[i];
      } else if 11 <= i < 13 {
        assert s[11..13][i - 11] == s[i];
      } else if 14 <= i < 16 {
        assert s[14..16][i - 14] == s[i];
      } else if 17 <= i < 19 {
        assert s[17..19][i - 17] == s[i];
      }
    }
  }

  /** A year of five digits has a digit where the guard wants a hyphen. */
  lemma LongYearIsNotKept(d: Date, rest: string)
    requires ValidDate(d) && d.year > 9999
    ensures !Kept(DateText(d, rest))
  {
    assert Pow10(4) == 10_000;
    PadOverflows(d.year, 4);
    PadReads(d.year, 4);
    assert DateText(d, rest)[4] == Pad(d.year, 4)[4];
  }

  /** The clock is refused exactly from year 10000 on. */
  lemma KeptExactlyUntil9999(seconds: int)
    requires 0 <= seconds
    ensures Current(seconds).Some? <==> seconds <= LAST_SECOND
  {
    DateRange(seconds);
    CivilCountsBack(seconds / 86_400);
    if seconds <= LAST_SECOND {
      FormatReadsBack(seconds);
      TimestampIsKept(Format(seconds));
    } else {
      LongYearIsNotKept(CivilFromDays(seconds / 86_400), "T" + TimeText(seconds % 86_400));
    }
  }

  /** So any two timestamps the clock gives to the state sort by time and read back, without condition. */
  lemma KeptTimestampsSortByTime(s: int, t: int)
    requires 0 <= s && 0 <= t && Current(s).Some? && Current(t).Some?
    ensures Less(Current(s).value, Current(t).value) <==> s < t
    ensures Parse(Current(s).value) == Some(s) && Parse(Current(t).value) == Some(t)
  {
    KeptExactlyUntil9999(s);
    KeptExactlyUntil9999(t);
    FormatReadsBack(s);
    FormatReadsBack(t);
    TextOrderIsTimeOrder(s, t);
  }
}
