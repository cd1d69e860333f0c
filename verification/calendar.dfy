/** Calendar dates as the server handles them: canonical YYYY-MM-DD text, compared as
    text, parsed into year, month and day, and stepped one civil day at a time. */
module Calendar {
  import opened Common

  datatype Civil = Civil(year: nat, month: nat, day: nat)

  predicate Leap(year: nat) {
    year % 4 == 0 && (year % 100 != 0 || year % 400 == 0)
  }

  function DaysIn(year: nat, month: nat): nat {
    if month == 2 then (if Leap(year) then 29 else 28)
    else if month in {4, 6, 9, 11} then 30
    else 31
  }

  predicate Valid(c: Civil) {
    1 <= c.month <= 12 && 1 <= c.day <= DaysIn(c.year, c.month)
  }

  /** Dates with a four-digit year are the ones that have a canonical text. */
  predicate Printable(c: Civil) {
    Valid(c) && c.year <= 9999
  }

  function YearLength(year: nat): nat {
    if Leap(year) then 366 else 365
  }

  /** Days before 1 January of the year, counted from 0000-01-01. */
  function DaysBeforeYear(year: nat): nat {
    if year == 0 then 0 else DaysBeforeYear(year - 1) + YearLength(year - 1)
  }

  function DaysBeforeMonth(year: nat, month: nat): nat
    requires 1 <= month <= 12
  {
    [0, 31, 59, 90, 120, 151, 181, 212, 243, 273, 304, 334][month - 1]
    + (if month > 2 && Leap(year) then 1 else 0)
  }

  function DayNumber(c: Civil): nat
    requires Valid(c)
  {
    DaysBeforeYear(c.year) + DaysBeforeMonth(c.year, c.month) + c.day - 1
  }

  /** AddDate(0, 0, 1). */
  function NextDay(c: Civil): (r: Civil)
    requires Valid(c)
    ensures Valid(r)
  {
    if c.day < DaysIn(c.year, c.month) then c.(day := c.day + 1)
    else if c.month < 12 then Civil(c.year, c.month + 1, 1)
    else Civil(c.year + 1, 1, 1)
  }

  lemma MonthLength(year: nat, month: nat)
    requires 1 <= month <= 12
    ensures DaysBeforeMonth(year, month) + DaysIn(year, month)
         == if month < 12 then DaysBeforeMonth(year, month + 1) else YearLength(year)
  {
  }

  /** Stepping to the next civil day adds exactly one to the day number, across month
      ends, year ends and leap days. */
  lemma NextDayAddsOne(c: Civil)
    requires Valid(c)
    ensures DayNumber(NextDay(c)) == DayNumber(c) + 1
  {
    MonthLength(c.year, c.month);
  }

  ghost predicate CivilLess(a: Civil, b: Civil) {
    a.year < b.year
    || (a.year == b.year && (a.month < b.month || (a.month == b.month && a.day < b.day)))
  }

  lemma {:induction false} YearsGrow(a: nat, b: nat)
    requires a < b
    ensures DaysBeforeYear(a) + YearLength(a) <= DaysBeforeYear(b)
    decreases b
  {
    if a < b - 1 {
      YearsGrow(a, b - 1);
    }
  }

  lemma {:induction false} MonthsGrow(year: nat, a: nat, b: nat)
    requires 1 <= a < b <= 12
    ensures DaysBeforeMonth(year, a) + DaysIn(year, a) <= DaysBeforeMonth(year, b)
    decreases b
  {
    MonthLength(year, b - 1);
    if a < b - 1 {
      MonthsGrow(year, a, b - 1);
    }
  }

  lemma EarlierHasSmallerNumber(a: Civil, b: Civil)
    requires Valid(a) && Valid(b) && CivilLess(a, b)
    ensures DayNumber(a) < DayNumber(b)
  {
    if a.year < b.year {
      YearsGrow(a.year, b.year);
      MonthLength(a.year, a.month);
      if a.month < 12 {
        MonthsGrow(a.year, a.month, 12);
        MonthLength(a.year, 12);
      }
    } else if a.month < b.month {
      MonthsGrow(a.year, a.month, b.month);
    }
  }

  lemma SameNumberSameDay(a: Civil, b: Civil)
    requires Valid(a) && Valid(b) && DayNumber(a) == DayNumber(b)
    ensures a == b
  {
    if CivilLess(a, b) {
      EarlierHasSmallerNumber(a, b);
    } else if CivilLess(b, a) {
      EarlierHasSmallerNumber(b, a);
    }
  }

  // ----- canonical text

  function Digit(n: nat): char
    requires n < 10
  {
    ('0' as int + n) as char
  }

  /** A number as %d prints it. */
  function Decimal(n: nat): string {
    if n < 10 then [Digit(n)] else Decimal(n / 10) + [Digit(n % 10)]
  }

  predicate IsDigit(c: char) {
    '0' <= c <= '9'
  }

  function DigitValue(c: char): (n: nat)
    requires IsDigit(c)
    ensures n < 10 && Digit(n) == c
  {
    (c as int) - ('0' as int)
  }

  function Pad2(n: nat): string
    requires n < 100
  {
    [Digit(n / 10), Digit(n % 10)]
  }

  function Pad4(n: nat): string
    requires n < 10000
  {
    Pad2(n / 100) + Pad2(n % 100)
  }

  /** The layout 2006-01-02. */
  function Format(c: Civil): string
    requires Printable(c)
  {
    Pad4(c.year) + "-" + Pad2(c.month) + "-" + Pad2(c.day)
  }

  function Number2(tens: char, units: char): (n: nat)
    requires IsDigit(tens) && IsDigit(units)
    ensures n < 100 && Pad2(n) == [tens, units]
  {
    10 * DigitValue(tens) + DigitValue(units)
  }

  predicate DateShaped(s: string) {
    |s| == 10 && s[4] == '-' && s[7] == '-'
    && IsDigit(s[0]) && IsDigit(s[1]) && IsDigit(s[2]) && IsDigit(s[3])
    && IsDigit(s[5]) && IsDigit(s[6]) && IsDigit(s[8]) && IsDigit(s[9])
  }

  function Fields(s: string): (c: Civil)
    requires DateShaped(s)
    ensures c.year <= 9999 && c.month < 100 && c.day < 100
  {
    Civil(100 * Number2(s[0], s[1]) + Number2(s[2], s[3]), Number2(s[5], s[6]), Number2(s[8], s[9]))
  }

  lemma Pad4Joins(century: nat, rest: nat)
    requires century < 100 && rest < 100
    ensures Pad4(100 * century + rest) == Pad2(century) + Pad2(rest)
  {
    assert (100 * century + rest) / 100 == century && (100 * century + rest) % 100 == rest;
  }

  lemma Spelled(s: string, century: nat, rest: nat, month: nat, day: nat)
    requires DateShaped(s) && century < 100 && rest < 100 && month < 100 && day < 100
    requires Pad2(century) == [s[0], s[1]] && Pad2(rest) == [s[2], s[3]]
    requires Pad2(month) == [s[5], s[6]] && Pad2(day) == [s[8], s[9]]
    ensures Pad4(100 * century + rest) + "-" + Pad2(month) + "-" + Pad2(day) == s
  {
    Pad4Joins(century, rest);
  }

  lemma FieldsSpell(s: string)
    requires DateShaped(s)
    ensures Pad4(Fields(s).year) + "-" + Pad2(Fields(s).month) + "-" + Pad2(Fields(s).day) == s
  {
    hide Pad4, Pad2;
    Spelled(s, Number2(s[0], s[1]), Number2(s[2], s[3]), Number2(s[5], s[6]), Number2(s[8], s[9]));
  }

  /** ParseDate: the text is accepted only in its canonical form. */
  function ParseDate(s: string): (r: Option<Civil>)
    ensures r.Some? ==> Printable(r.value) && Format(r.value) == s
  {
    if DateShaped(s) && Valid(Fields(s)) then FieldsSpell(s); Some(Fields(s)) else None
  }

  /** What a digit stands for. */
  function Worth(c: char): int {
    c as int - '0' as int
  }

  /** An accepted text is ten characters, digits but for two dashes, and they spell the year,
      the month and the day of a date that exists. */
  lemma DateTextMeaning(s: string)
    ensures ParseDate(s).Some? ==> |s| == 10
    ensures |s| == 10 && ParseDate(s).Some? ==>
              s[4] == '-' && s[7] == '-' && forall i :: 0 <= i < 10 && i != 4 && i != 7 ==> '0' <= s[i] <= '9'
    ensures |s| == 10 && s[4] == '-' && s[7] == '-'
            && (forall i :: 0 <= i < 10 && i != 4 && i != 7 ==> '0' <= s[i] <= '9') ==>
              var year := 1000 * Worth(s[0]) + 100 * Worth(s[1]) + 10 * Worth(s[2]) + Worth(s[3]);
              var month, day := 10 * Worth(s[5]) + Worth(s[6]), 10 * Worth(s[8]) + Worth(s[9]);
              year >= 0 && month >= 0 && day >= 0
              && ParseDate(s) == if 1 <= month <= 12 && 1 <= day <= DaysIn(year, month)
                                 then Some(Civil(year, month, day)) else None
  {
    hide DaysIn;
    if DateShaped(s) {
      FieldsByDigits(s);
    }
  }

  lemma FieldsByDigits(s: string)
    requires DateShaped(s)
    ensures Fields(s).year == 1000 * Worth(s[0]) + 100 * Worth(s[1]) + 10 * Worth(s[2]) + Worth(s[3])
    ensures Fields(s).month == 10 * Worth(s[5]) + Worth(s[6]) && Fields(s).day == 10 * Worth(s[8]) + Worth(s[9])
  {
    hide Pad2;
  }

  /** The months are as long as the civil calendar has them. */
  lemma MonthDays(year: nat, month: nat)
    requires 1 <= month <= 12
    ensures DaysIn(year, month) ==
            match month
            case 1 => 31 case 3 => 31 case 5 => 31 case 7 => 31 case 8 => 31 case 10 => 31 case 12 => 31
            case 4 => 30 case 6 => 30 case 9 => 30 case 11 => 30
            case _ => if (year % 4 == 0 && year % 100 != 0) || year % 400 == 0 then 29 else 28
  {
  }

  lemma Pad2Digits(n: nat)
    requires n < 100
    ensures IsDigit(Pad2(n)[0]) && IsDigit(Pad2(n)[1]) && Number2(Pad2(n)[0], Pad2(n)[1]) == n
  {
  }

  /** Parsing undoes formatting, so every printable day has exactly one accepted text. */
  lemma ParseUndoesFormat(c: Civil)
    requires Printable(c)
    ensures ParseDate(Format(c)) == Some(c)
  {
    Pad2Digits(c.year / 100);
    Pad2Digits(c.year % 100);
    Pad2Digits(c.month);
    Pad2Digits(c.day);
    assert Fields(Format(c)) == c;
  }

  // ----- text order

  /** Byte-wise order of Go strings. */
  predicate LexLess(a: string, b: string) {
    b != [] && (a == [] || a[0] < b[0] || (a[0] == b[0] && LexLess(a[1..], b[1..])))
  }

  /** Neither before the start nor after the end, as texts. */
  predicate WithinPeriod(date: string, start: string, end: string) {
    !LexLess(date, start) && !LexLess(end, date)
  }

  lemma {:induction false} LexSplit(a: string, b: string, u: string, v: string)
    requires |a| == |b|
    ensures LexLess(a + u, b + v) <==> LexLess(a, b) || (a == b && LexLess(u, v))
  {
    if a == [] {
      assert a + u == u && b + v == v;
    } else {
      assert (a + u)[1..] == a[1..] + u && (b + v)[1..] == b[1..] + v;
      LexSplit(a[1..], b[1..], u, v);
      assert a == b <==> a[0] == b[0] && a[1..] == b[1..];
    }
  }

  lemma Pad2Order(m: nat, n: nat)
    requires m < 100 && n < 100
    ensures LexLess(Pad2(m), Pad2(n)) <==> m < n
    ensures Pad2(m) == Pad2(n) <==> m == n
  {
    assert Pad2(m)[1..] == [Digit(m % 10)] && Pad2(n)[1..] == [Digit(n % 10)];
    assert !LexLess([], []);
    assert LexLess([Digit(m % 10)], [Digit(n % 10)]) <==> m % 10 < n % 10;
    assert Digit(m / 10) < Digit(n / 10) <==> m / 10 < n / 10;
  }

  lemma Pad4Order(m: nat, n: nat)
    requires m < 10000 && n < 10000
    ensures LexLess(Pad4(m), Pad4(n)) <==> m < n
    ensures Pad4(m) == Pad4(n) <==> m == n
  {
    LexSplit(Pad2(m / 100), Pad2(n / 100), Pad2(m % 100), Pad2(n % 100));
    Pad2Order(m / 100, n / 100);
    Pad2Order(m % 100, n % 100);
    if Pad4(m) == Pad4(n) {
      assert Pad4(m)[..2] == Pad2(m / 100) && Pad4(n)[..2] == Pad2(n / 100);
      assert Pad4(m)[2..] == Pad2(m % 100) && Pad4(n)[2..] == Pad2(n % 100);
    }
  }

  /** Comparing canonical texts compares calendar days. */
  lemma TextOrderIsDayOrder(a: Civil, b: Civil)
    requires Printable(a) && Printable(b)
    ensures LexLess(Format(a), Format(b)) <==> DayNumber(a) < DayNumber(b)
    ensures Format(a) == Format(b) <==> DayNumber(a) == DayNumber(b)
  {
    var da, db := Pad2(a.day), Pad2(b.day);
    var ma, mb := Pad2(a.month), Pad2(b.month);
    var ra, rb := ma + ("-" + da), mb + ("-" + db);
    var ya, yb := Pad4(a.year), Pad4(b.year);
    assert Format(a) == ya + ("-" + ra) && Format(b) == yb + ("-" + rb);
    LexSplit(ya, yb, "-" + ra, "-" + rb);
    LexSplit("-", "-", ra, rb);
    LexSplit(ma, mb, "-" + da, "-" + db);
    LexSplit("-", "-", da, db);
    assert !LexLess("-", "-");
    Pad4Order(a.year, b.year);
    Pad2Order(a.month, b.month);
    Pad2Order(a.day, b.day);
    assert LexLess(Format(a), Format(b)) <==> CivilLess(a, b);
    if CivilLess(a, b) {
      EarlierHasSmallerNumber(a, b);
    } else if CivilLess(b, a) {
      EarlierHasSmallerNumber(b, a);
    }
    if Format(a) == Format(b) {
      ParseUndoesFormat(a);
      ParseUndoesFormat(b);
    }
  }

  // ----- date ranges

  /** The text is a canonical date whose day number is n. */
  ghost predicate IsDay(s: string, n: int) {
    ParseDate(s).Some? && DayNumber(ParseDate(s).value) == n
  }

  /** Every day from first to last once, in order. */
  ghost predicate DayList(dates: seq<string>, first: int, last: int) {
    |dates| == last - first + 1
    && forall i {:trigger dates[i]} :: 0 <= i < |dates| ==> IsDay(dates[i], first + i)
  }

  /** datesBetween and importDates: the two functions have the same body. */
  method DatesBetween(start: string, end: string) returns (r: Option<seq<string>>)
    ensures r.Some? <==> ParseDate(start).Some? && ParseDate(end).Some? && !LexLess(end, start)
    ensures r.Some? ==> DayList(r.value, DayNumber(ParseDate(start).value), DayNumber(ParseDate(end).value))
  {
    var first, last := ParseDate(start), ParseDate(end);
    if first.None? || last.None? {
      return None;
    }
    TextOrderIsDayOrder(last.value, first.value);
    if DayNumber(last.value) < DayNumber(first.value) {
      return None;
    }
    var dates: seq<string> := [];
    var current := first.value;
    while DayNumber(current) <= DayNumber(last.value)
      invariant Valid(current)
      invariant DayNumber(first.value) <= DayNumber(current) <= DayNumber(last.value) + 1
      invariant DayList(dates, DayNumber(first.value), DayNumber(current) - 1)
      decreases DayNumber(last.value) + 1 - DayNumber(current)
    {
      NumberBoundsYear(current, last.value);
      ParseUndoesFormat(current);
      dates := dates + [Format(current)];
      NextDayAddsOne(current);
      current := NextDay(current);
    }
    return Some(dates);
  }

  lemma NumberBoundsYear(c: Civil, last: Civil)
    requires Valid(c) && Printable(last) && DayNumber(c) <= DayNumber(last)
    ensures Printable(c)
  {
    if c.year > last.year {
      EarlierHasSmallerNumber(last, c);
    }
  }

  /** A day list is strictly increasing as text, so no date appears twice. */
  lemma DayListIncreases(dates: seq<string>, first: int, last: int)
    requires DayList(dates, first, last)
    ensures forall i, j :: 0 <= i < j < |dates| ==> LexLess(dates[i], dates[j]) && dates[i] != dates[j]
  {
    forall i, j | 0 <= i < j < |dates|
      ensures LexLess(dates[i], dates[j]) && dates[i] != dates[j]
    {
      TextOrderIsDayOrder(ParseDate(dates[i]).value, ParseDate(dates[j]).value);
    }
  }

  /** A day list holds a canonical date exactly when text comparison puts it in the range. */
  lemma DayListIsTheRange(dates: seq<string>, start: string, end: string, s: string)
    requires ParseDate(start).Some? && ParseDate(end).Some?
    requires DayList(dates, DayNumber(ParseDate(start).value), DayNumber(ParseDate(end).value))
    ensures s in dates <==> ParseDate(s).Some? && !LexLess(s, start) && !LexLess(end, s)
  {
    if ParseDate(s).Some? {
      var a, b, c := ParseDate(start).value, ParseDate(end).value, ParseDate(s).value;
      TextOrderIsDayOrder(c, a);
      TextOrderIsDayOrder(b, c);
      if DayNumber(a) <= DayNumber(c) <= DayNumber(b) {
        var i := DayNumber(c) - DayNumber(a);
        assert IsDay(dates[i], DayNumber(c));
        SameNumberSameDay(ParseDate(dates[i]).value, c);
      }
    }
  }
}
