/**
 * Calendar dates as the bot reads and writes them: `datetime.datetime.strptime(text, "%Y-%m-%d")`
 * decides whether a date the user typed is accepted, `date.isoformat()` spells the date the
 * reminder looks for, and `<` on dates orders a trip's start and end.
 */
module Dates {
  import opened Wrappers
  import opened Numerals

  datatype Date = Date(year: int, month: int, day: int)

  /** Gregorian leap years. */
  predicate IsLeapYear(y: int) {
    y % 4 == 0 && (y % 100 != 0 || y % 400 == 0)
  }

  function DaysInMonth(y: int, m: int): (n: int)
    requires 1 <= m <= 12
    ensures 28 <= n <= 31
    ensures n == 29 <==> m == 2 && IsLeapYear(y)
  {
    if m == 2 then (if IsLeapYear(y) then 29 else 28)
    else if m == 4 || m == 6 || m == 9 || m == 11 then 30
    else 31
  }

  /** The dates `datetime.date` can represent. */
  predicate ValidDate(d: Date) {
    1 <= d.year <= 9999 && 1 <= d.month <= 12 && 1 <= d.day <= DaysInMonth(d.year, d.month)
  }

  /** `a < b` on `datetime.date`: chronological order. */
  predicate Before(a: Date, b: Date) {
    a.year < b.year || (a.year == b.year && (a.month < b.month || (a.month == b.month && a.day < b.day)))
  }

  /** Chronological order is a strict total order on dates. */
  lemma BeforeIsStrictTotal(a: Date, b: Date, c: Date)
    ensures !Before(a, a)
    ensures Before(a, b) && Before(b, c) ==> Before(a, c)
    ensures a != b ==> Before(a, b) || Before(b, a)
  {
  }

  // ---------------------------------------------------------------------------------------
  // The pattern strptime compiles for "%Y-%m-%d" is
  //   (?P<Y>\d\d\d\d)-(?P<m>1[0-2]|0[1-9]|[1-9])-(?P<d>3[0-1]|[1-2]\d|0[1-9]|[1-9]| [1-9])
  // matched at the start of the text with the regular-expression engine's ordered
  // alternation; the text is rejected when the match does not reach its end ("unconverted
  // data remains") or when the fields do not form a date. The functions below follow those
  // steps.
  // ---------------------------------------------------------------------------------------

  /** `%Y`: exactly four digits. */
  function YearValue(t: string): int
    requires |t| == 4 && AllDigits(t)
  {
    1000 * DigitValue(t[0]) + 100 * DigitValue(t[1]) + 10 * DigitValue(t[2]) + DigitValue(t[3])
  }

  /** `%d`, the last group: the first alternative that matches a prefix of `t`, as (day,
      characters consumed). */
  function MatchDay(t: string): (r: Option<(int, nat)>)
    ensures r.Some? ==> 1 <= r.value.1 <= |t|
  {
    if |t| >= 2 && t[0] == '3' && '0' <= t[1] <= '1' then Some((30 + DigitValue(t[1]), 2))
    else if |t| >= 2 && '1' <= t[0] <= '2' && IsDigit(t[1]) then Some((10 * DigitValue(t[0]) + DigitValue(t[1]), 2))
    else if |t| >= 2 && t[0] == '0' && '1' <= t[1] <= '9' then Some((DigitValue(t[1]), 2))
    else if |t| >= 1 && '1' <= t[0] <= '9' then Some((DigitValue(t[0]), 1))
    else if |t| >= 2 && t[0] == ' ' && '1' <= t[1] <= '9' then Some((DigitValue(t[1]), 2))
    else None
  }

  /** What follows a month alternative that consumed `len` characters of `t`: the literal `-`
      and then the day group. */
  function DayAfter(t: string, len: nat): (r: Option<(int, nat)>)
    ensures r.Some? ==> len + 1 + r.value.1 <= |t|
  {
    if len < |t| && t[len] == '-' then MatchDay(t[len + 1..]) else None
  }

  /** `%m-%d` on the text after "YYYY-": the month alternatives `1[0-2]`, `0[1-9]`, `[1-9]` are
      tried in this order, backtracking to the next one when the rest of the pattern fails.
      Yields (month, day, characters consumed). */
  function MatchMonthDay(t: string): (r: Option<(int, int, nat)>)
    ensures r.Some? ==> r.value.2 <= |t|
  {
    if |t| >= 2 && t[0] == '1' && '0' <= t[1] <= '2' && DayAfter(t, 2).Some? then
      Some((10 + DigitValue(t[1]), DayAfter(t, 2).value.0, 3 + DayAfter(t, 2).value.1))
    else if |t| >= 2 && t[0] == '0' && '1' <= t[1] <= '9' && DayAfter(t, 2).Some? then
      Some((DigitValue(t[1]), DayAfter(t, 2).value.0, 3 + DayAfter(t, 2).value.1))
    else if |t| >= 1 && '1' <= t[0] <= '9' && DayAfter(t, 1).Some? then
      Some((DigitValue(t[0]), DayAfter(t, 1).value.0, 2 + DayAfter(t, 1).value.1))
    else None
  }

  /** The regular-expression match of "%Y-%m-%d" at the start of `s`: the fields read and the
      number of characters it covers. */
  function MatchDateFormat(s: string): Option<(Date, nat)> {
    if |s| < 5 || !AllDigits(s[..4]) || s[4] != '-' then None
    else
      match MatchMonthDay(s[5..])
      case None => None
      case Some((m, d, len)) => Some((Date(YearValue(s[..4]), m, d), 5 + len))
  }

  /** `datetime.datetime.strptime(s, "%Y-%m-%d")`: the date when it succeeds, `None` where it
      raises `ValueError`. */
  function ParseDate(s: string): (r: Option<Date>)
    ensures r.Some? ==> ValidDate(r.value)
  {
    match MatchDateFormat(s)
    case None => None
    case Some((d, len)) => if len == |s| && ValidDate(d) then Some(d) else None
  }

  // ---------------------------------------------------------------------------------------
  // An independent description of the accepted texts: the year in four digits, the month in
  // two digits or (below 10) in one, the day in two digits or (below 10) in one or as a space
  // followed by one digit.
  // ---------------------------------------------------------------------------------------

  function Pad2(n: nat): (r: string)
    requires n < 100
    ensures |r| == 2 && AllDigits(r)
  {
    [DigitChar(n / 10), DigitChar(n % 10)]
  }

  function Pad4(n: nat): (r: string)
    requires n < 10000
    ensures |r| == 4 && AllDigits(r)
  {
    [DigitChar(n / 1000), DigitChar(n / 100 % 10), DigitChar(n / 10 % 10), DigitChar(n % 10)]
  }

  function MonthTexts(m: nat): set<string>
    requires m < 100
  {
    {Pad2(m)} + (if 1 <= m < 10 then {[DigitChar(m)]} else {})
  }

  function DayTexts(d: nat): set<string>
    requires d < 100
  {
    {Pad2(d)} + (if 1 <= d < 10 then {[DigitChar(d)], [' ', DigitChar(d)]} else {})
  }

  /** `s` spells the valid date `d` in one of the accepted forms. */
  predicate Spells(s: string, d: Date)
    requires ValidDate(d)
  {
    exists mt, dt :: mt in MonthTexts(d.month) && dt in DayTexts(d.day) &&
      s == Pad4(d.year) + "-" + mt + "-" + dt
  }

  /** `date.isoformat()`: YYYY-MM-DD with zero padding. */
  function IsoFormat(d: Date): (r: string)
    requires ValidDate(d)
    ensures |r| == 10 && Spells(r, d)
    ensures AllDigits(r[..4]) && r[4] == '-' && AllDigits(r[5..7]) && r[7] == '-' && AllDigits(r[8..])
  {
    var r := Pad4(d.year) + "-" + Pad2(d.month) + "-" + Pad2(d.day);
    assert Pad2(d.month) in MonthTexts(d.month) && Pad2(d.day) in DayTexts(d.day);
    r
  }

  lemma DivMod10(q: int, r: int)
    requires 0 <= r < 10
    ensures (10 * q + r) / 10 == q && (10 * q + r) % 10 == r
  {
  }

  lemma YearRoundTrip(t: string)
    requires |t| == 4 && AllDigits(t)
    ensures 0 <= YearValue(t) < 10000 && Pad4(YearValue(t)) == t
  {
    var y := YearValue(t);
    var a, b, c, e := DigitValue(t[0]), DigitValue(t[1]), DigitValue(t[2]), DigitValue(t[3]);
    DivMod10(100 * a + 10 * b + c, e);
    DivMod10(10 * a + b, c);
    DivMod10(a, b);
    assert y / 10 == 100 * a + 10 * b + c;
    assert y / 100 == (y / 10) / 10 == 10 * a + b;
    assert y / 1000 == (y / 100) / 10 == a;
    DigitCharOfValue(t[0]); DigitCharOfValue(t[1]); DigitCharOfValue(t[2]); DigitCharOfValue(t[3]);
  }

  lemma Pad2OfDigits(c0: char, c1: char)
    requires IsDigit(c0) && IsDigit(c1)
    ensures Pad2(10 * DigitValue(c0) + DigitValue(c1)) == [c0, c1]
  {
    DivMod10(DigitValue(c0), DigitValue(c1));
    DigitCharOfValue(c0); DigitCharOfValue(c1);
  }

  lemma Pad2OfDigit(c: char)
    requires IsDigit(c)
    ensures Pad2(DigitValue(c)) == ['0', c] && [DigitChar(DigitValue(c))] == [c]
  {
    DigitCharOfValue(c);
  }

  /** The day group consumes exactly a spelling of the day it reads. */
  lemma DayTextOfMatch(t: string)
    requires MatchDay(t).Some?
    ensures var (d, len) := MatchDay(t).value;
      1 <= d <= 39 && t[..len] in DayTexts(d)
  {
    var (d, len) := MatchDay(t).value;
    if len == 2 && t[0] != ' ' && t[0] != '0' {
      Pad2OfDigits(t[0], t[1]);
      assert t[..2] == [t[0], t[1]];
    } else if len == 2 && t[0] == '0' {
      Pad2OfDigit(t[1]);
      assert t[..2] == ['0', t[1]];
    } else if len == 2 {
      Pad2OfDigit(t[1]);
      assert t[..2] == [' ', t[1]];
    } else {
      Pad2OfDigit(t[0]);
      assert t[..1] == [t[0]];
    }
  }

  /** The month and day groups consume exactly a spelling of the month, a `-` and a spelling
      of the day. */
  lemma MonthDayTextOfMatch(t: string)
    requires MatchMonthDay(t).Some?
    ensures var (m, d, len) := MatchMonthDay(t).value;
      exists mt, dt :: mt in MonthTexts(m) && dt in DayTexts(d) && t[..len] == mt + "-" + dt
  {
    var (m, d, len) := MatchMonthDay(t).value;
    var mlen: nat := if |t| >= 2 && t[0] == '1' && '0' <= t[1] <= '2' && DayAfter(t, 2).Some? then 2
      else if |t| >= 2 && t[0] == '0' && '1' <= t[1] <= '9' && DayAfter(t, 2).Some? then 2
      else 1;
    var rest := t[mlen + 1..];
    DayTextOfMatch(rest);
    var dlen := MatchDay(rest).value.1;
    var mt, dt := t[..mlen], rest[..dlen];
    if mlen == 2 && t[0] == '1' {
      Pad2OfDigits(t[0], t[1]);
      assert mt == [t[0], t[1]];
    } else if mlen == 2 {
      Pad2OfDigit(t[1]);
      assert mt == ['0', t[1]];
    } else {
      Pad2OfDigit(t[0]);
      assert mt == [t[0]];
    }
    assert mt in MonthTexts(m);
    assert t[..len] == mt + "-" + dt;
  }

  /** Every text strptime accepts spells the date it yields. */
  lemma ParseDateSound(s: string)
    requires ParseDate(s).Some?
    ensures Spells(s, ParseDate(s).value)
  {
    var d := ParseDate(s).value;
    YearRoundTrip(s[..4]);
    MonthDayTextOfMatch(s[5..]);
    var len := MatchMonthDay(s[5..]).value.2;
    assert s == s[..4] + "-" + s[5..][..len];
  }

  lemma Pad4RoundTrip(y: nat)
    requires y < 10000
    ensures YearValue(Pad4(y)) == y
  {
    var q1, e := y / 10, y % 10;
    var q2, c := q1 / 10, q1 % 10;
    var a, b := q2 / 10, q2 % 10;
    assert y == 100 * q2 + (10 * c + e);
    assert y / 100 == q2;
    assert y == 1000 * a + (100 * b + 10 * c + e);
    assert y / 1000 == a;
    var t := Pad4(y);
    assert DigitValue(t[0]) == a && DigitValue(t[1]) == b;
    assert DigitValue(t[2]) == c && DigitValue(t[3]) == e;
  }

  /** The day group reads back every spelling of a day of a month. */
  lemma MatchDayOfText(dt: string, d: nat)
    requires 1 <= d <= 31 && dt in DayTexts(d)
    ensures MatchDay(dt) == Some((d, |dt|))
  {
    if dt == Pad2(d) {
      assert DigitValue(dt[0]) == d / 10 && DigitValue(dt[1]) == d % 10;
    }
  }

  /** The month and day groups read back every spelling of a month, a `-` and a day. */
  lemma MatchMonthDayOfText(mt: string, dt: string, m: nat, d: nat)
    requires 1 <= m <= 12 && 1 <= d <= 31 && mt in MonthTexts(m) && dt in DayTexts(d)
    ensures MatchMonthDay(mt + "-" + dt) == Some((m, d, |mt| + 1 + |dt|))
  {
    var t := mt + "-" + dt;
    MatchDayOfText(dt, d);
    assert t[|mt| + 1..] == dt;
    if mt == Pad2(m) {
      assert DigitValue(mt[0]) == m / 10 && DigitValue(mt[1]) == m % 10;
      assert DayAfter(t, 2) == Some((d, |dt|));
    } else {
      assert DayAfter(t, 1) == Some((d, |dt|));
    }
  }

  /** strptime accepts every spelling of a valid date and yields that date. */
  lemma ParseDateComplete(s: string, d: Date)
    requires ValidDate(d) && Spells(s, d)
    ensures ParseDate(s) == Some(d)
  {
    var mt, dt :| mt in MonthTexts(d.month) && dt in DayTexts(d.day) && s == Pad4(d.year) + "-" + mt + "-" + dt;
    assert s[..4] == Pad4(d.year) && s[4] == '-' && s[5..] == mt + "-" + dt;
    Pad4RoundTrip(d.year);
    MatchMonthDayOfText(mt, dt, d.month, d.day);
  }

  /** The two directions together: strptime accepts exactly the spellings of valid dates. */
  lemma ParseDateIff(s: string, d: Date)
    ensures ParseDate(s) == Some(d) <==> ValidDate(d) && Spells(s, d)
  {
    if ParseDate(s) == Some(d) {
      ParseDateSound(s);
    }
    if ValidDate(d) && Spells(s, d) {
      ParseDateComplete(s, d);
    }
  }

  /** The ISO spelling of a date is read back as that date. */
  lemma ParseIsoFormat(d: Date)
    requires ValidDate(d)
    ensures ParseDate(IsoFormat(d)) == Some(d)
  {
    ParseDateComplete(IsoFormat(d), d);
  }

  /** Texts in other layouts are rejected. */
  lemma RejectedLayouts()
    ensures ParseDate("") == None
    ensures ParseDate("2024/01/01") == None
    ensures ParseDate("01-01-2024") == None
    ensures ParseDate("2024-01-01x") == None
  {
  }

  /** Texts in the layout that name no date are rejected: February 29th of a common year,
      year 0, month 13. */
  lemma RejectedImpossibleDates()
    ensures ParseDate("2023-02-29") == None
    ensures ParseDate("0000-01-01") == None
    ensures ParseDate("2024-13-01") == None
  {
  }

  /** A date written in full is accepted. */
  lemma AcceptedLeapDay()
    ensures ParseDate("2024-02-29") == Some(Date(2024, 2, 29))
  {
    SpelledAs(Date(2024, 2, 29), Pad2(2), Pad2(29));
    assert Pad4(2024) == "2024" && Pad2(2) == "02" && Pad2(29) == "29";
    ParseDateComplete("2024-02-29", Date(2024, 2, 29));
  }

  /** One-digit months and days are accepted. */
  lemma AcceptedShortSpelling()
    ensures ParseDate("2025-6-1") == Some(Date(2025, 6, 1))
  {
    SpelledAs(Date(2025, 6, 1), [DigitChar(6)], [DigitChar(1)]);
    assert Pad4(2025) == "2025" && [DigitChar(6)] == "6" && [DigitChar(1)] == "1";
    ParseDateComplete("2025-6-1", Date(2025, 6, 1));
  }

  /** A day written as a space and one digit is accepted. */
  lemma AcceptedSpacePaddedDay()
    ensures ParseDate("2025-06- 1") == Some(Date(2025, 6, 1))
  {
    SpelledAs(Date(2025, 6, 1), Pad2(6), [' ', DigitChar(1)]);
    assert Pad4(2025) == "2025" && Pad2(6) == "06" && [' ', DigitChar(1)] == " 1";
    ParseDateComplete("2025-06- 1", Date(2025, 6, 1));
  }

  /** The first and the tenth of June 2025, written in full, for the worked example of the
      add-trip form. */
  lemma AcceptedFirstOfJune()
    ensures ParseDate("2025-06-01") == Some(Date(2025, 6, 1))
  {
    SpelledAs(Date(2025, 6, 1), Pad2(6), Pad2(1));
    assert Pad4(2025) == "2025" && Pad2(6) == "06" && Pad2(1) == "01";
    ParseDateComplete("2025-06-01", Date(2025, 6, 1));
  }

  lemma AcceptedTenthOfJune()
    ensures ParseDate("2025-06-10") == Some(Date(2025, 6, 10))
  {
    SpelledAs(Date(2025, 6, 10), Pad2(6), Pad2(10));
    assert Pad4(2025) == "2025" && Pad2(6) == "06" && Pad2(10) == "10";
    ParseDateComplete("2025-06-10", Date(2025, 6, 10));
  }

  lemma SpelledAs(d: Date, mt: string, dt: string)
    requires ValidDate(d) && mt in MonthTexts(d.month) && dt in DayTexts(d.day)
    ensures Spells(Pad4(d.year) + "-" + mt + "-" + dt, d)
  {
  }
}
