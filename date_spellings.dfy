/** Which strings `validate_date` accepts, stated without the parser: a date
    is spelled as its four-digit year, `-`, a month spelling, `-`, a day
    spelling, where a month or day below ten may be written with or without a
    leading zero (and a day also after one space), and a larger one with its
    two digits.  The zero-padded form is the extended calendar date format of
    section 4.1.2.2 of ISO 8601:2004 (`YYYY-MM-DD`); `strptime` also takes the
    other forms. */
module DateSpellings {
  import opened Wrappers
  import opened Dates

  function Digit(n: int): (c: char)
    requires 0 <= n <= 9
    ensures IsDigit(c) && DigitValue(c) == n
  {
    ('0' as int + n) as char
  }

  function TwoDigits(n: int): (t: string)
    requires 0 <= n <= 99
  {
    [Digit(n / 10), Digit(n % 10)]
  }

  function YearText(y: int): (t: string)
    requires 0 <= y <= 9999
  {
    [Digit(y / 1000), Digit(y / 100 % 10), Digit(y / 10 % 10), Digit(y % 10)]
  }

  function MonthSpellings(m: int): set<string> {
    if 1 <= m <= 9 then {[Digit(m)], TwoDigits(m)}
    else if 10 <= m <= 12 then {TwoDigits(m)}
    else {}
  }

  function DaySpellings(d: int): set<string> {
    if 1 <= d <= 9 then {[Digit(d)], TwoDigits(d), [' ', Digit(d)]}
    else if 10 <= d <= 31 then {TwoDigits(d)}
    else {}
  }

  /** `s` is one way of writing the date `d`. */
  ghost predicate Spells(s: string, d: Date)
    requires 0 <= d.year <= 9999
  {
    exists ms, ds | ms in MonthSpellings(d.month) && ds in DaySpellings(d.day) ::
      s == YearText(d.year) + "-" + ms + "-" + ds
  }

  /** The canonical `YYYY-MM-DD` text of a date. */
  function Format(d: Date): (s: string)
    requires IsValidDate(d)
    ensures |s| == 10
  {
    YearText(d.year) + "-" + TwoDigits(d.month) + "-" + TwoDigits(d.day)
  }

  // ---------------------------------------------------------------------
  // Each directive matches exactly the spellings of its number

  /** Four decimal digits and the number they denote determine each other. */
  lemma DecimalDigits(y: int, a: int, b: int, c: int, e: int)
    requires 0 <= a <= 9 && 0 <= b <= 9 && 0 <= c <= 9 && 0 <= e <= 9
    ensures y == 1000 * a + 100 * b + 10 * c + e <==>
            (0 <= y <= 9999 && a == y / 1000 && b == y / 100 % 10 && c == y / 10 % 10 && e == y % 10)
  {
    if y == 1000 * a + 100 * b + 10 * c + e {
      assert y / 10 == 100 * a + 10 * b + c;
      assert y / 100 == 10 * a + b;
    }
    if 0 <= y <= 9999 {
      var q1 := y / 10;
      assert y == 10 * q1 + y % 10;
      var q2 := q1 / 10;
      assert q1 == 10 * q2 + q1 % 10;
      assert q2 == y / 100;
      assert y == 100 * (y / 100) + 10 * (y / 10 % 10) + y % 10;
      assert y / 100 == 10 * (y / 1000) + y / 100 % 10;
    }
  }

  lemma YearTextMatches(y: int, rest: string)
    requires 0 <= y <= 9999
    ensures MatchYear(YearText(y) + rest) == Some(Field(y, 4))
  {
    var t := YearText(y) + rest;
    assert t[..4] == YearText(y);
    DecimalDigits(y, y / 1000, y / 100 % 10, y / 10 % 10, y % 10);
  }

  lemma MatchYearSpells(t: string)
    requires MatchYear(t).Some?
    ensures t[..4] == YearText(MatchYear(t).value.value)
  {
    var y := MatchYear(t).value.value;
    DecimalDigits(y, DigitValue(t[0]), DigitValue(t[1]), DigitValue(t[2]), DigitValue(t[3]));
    assert Digit(DigitValue(t[0])) == t[0];
    assert Digit(DigitValue(t[1])) == t[1];
    assert Digit(DigitValue(t[2])) == t[2];
    assert Digit(DigitValue(t[3])) == t[3];
  }

  lemma MonthSpellingMatches(m: int, ms: string, rest: string)
    requires ms in MonthSpellings(m)
    requires |rest| > 0 && rest[0] == '-'
    ensures MatchMonth(ms + rest) == Some(Field(m, |ms|))
  {
    var t := ms + rest;
    assert t[..|ms|] == ms;
  }

  lemma MatchMonthSpells(t: string)
    requires MatchMonth(t).Some?
    ensures t[..MatchMonth(t).value.width] in MonthSpellings(MatchMonth(t).value.value)
  {
    var f := MatchMonth(t).value;
    if f.width == 1 {
      assert t[..1] == [Digit(f.value)];
    } else {
      assert t[..2] == TwoDigits(f.value);
    }
  }

  lemma DaySpellingMatches(d: int, ds: string)
    requires ds in DaySpellings(d)
    ensures MatchDay(ds) == Some(Field(d, |ds|))
  {
  }

  lemma MatchDaySpells(t: string)
    requires MatchDay(t).Some?
    ensures t[..MatchDay(t).value.width] in DaySpellings(MatchDay(t).value.value)
  {
    var f := MatchDay(t).value;
    if f.width == 1 {
      assert t[..1] == [Digit(f.value)];
    } else if t[0] == ' ' {
      assert t[..2] == [' ', Digit(f.value)];
    } else {
      assert t[..2] == TwoDigits(f.value);
    }
  }

  // ---------------------------------------------------------------------
  // The parser accepts exactly the spellings of valid dates

  lemma {:induction false} ParseDateComplete(d: Date, ms: string, ds: string)
    requires IsValidDate(d)
    requires ms in MonthSpellings(d.month) && ds in DaySpellings(d.day)
    ensures ParseDate(YearText(d.year) + "-" + ms + "-" + ds) == Some(d)
  {
    var s := YearText(d.year) + "-" + ms + "-" + ds;
    YearTextMatches(d.year, "-" + ms + "-" + ds);
    assert s == YearText(d.year) + ("-" + ms + "-" + ds);
    assert s[4] == '-';
    assert s[5..] == ms + ("-" + ds);
    MonthSpellingMatches(d.month, ms, "-" + ds);
    assert |ms| <= 2;
    assert s[5 + |ms|] == '-';
    assert s[6 + |ms|..] == ds;
    DaySpellingMatches(d.day, ds);
  }

  lemma {:induction false} ParseDateSound(s: string)
    requires ParseDate(s).Some?
    ensures IsValidDate(ParseDate(s).value)
    ensures Spells(s, ParseDate(s).value)
  {
    var d := ParseDate(s).value;
    var y := MatchYear(s).value;
    var m := MatchMonth(s[5..]).value;
    var dayAt := 6 + m.width;
    var f := MatchDay(s[dayAt..]).value;
    assert d == Date(y.value, m.value, f.value);
    MatchYearSpells(s);
    MatchMonthSpells(s[5..]);
    MatchDaySpells(s[dayAt..]);
    var ms := s[5..][..m.width];
    var ds := s[dayAt..][..f.width];
    assert ms in MonthSpellings(d.month) && ds in DaySpellings(d.day);
    assert ds == s[dayAt..];
    assert s == s[..4] + [s[4]] + ms + [s[dayAt - 1]] + ds;
  }

  /** `ParseDate` is a parser for exactly the valid dates and their
      spellings, both ways. */
  lemma ParseDateIff(s: string, d: Date)
    ensures ParseDate(s) == Some(d) <==> IsValidDate(d) && Spells(s, d)
  {
    if ParseDate(s) == Some(d) {
      ParseDateSound(s);
    }
    if IsValidDate(d) && Spells(s, d) {
      var ms, ds :| ms in MonthSpellings(d.month) && ds in DaySpellings(d.day)
                    && s == YearText(d.year) + "-" + ms + "-" + ds;
      ParseDateComplete(d, ms, ds);
    }
  }

  /** Round trip: every valid date's canonical text parses back to it. */
  lemma ParseFormat(d: Date)
    requires IsValidDate(d)
    ensures ParseDate(Format(d)) == Some(d)
  {
    ParseDateComplete(d, TwoDigits(d.month), TwoDigits(d.day));
  }

  // ---------------------------------------------------------------------
  // What validate_date accepts

  /** The window 2025-01-01 .. 2025-09-15, written out field by field. */
  predicate InWindow2025(d: Date) {
    d.year == 2025 && (d.month < 9 || (d.month == 9 && d.day <= 15))
  }

  lemma InWindowIff(d: Date)
    requires IsValidDate(d)
    ensures InWindow(d) <==> InWindow2025(d)
  {
  }

  /** `validate_date(s)` is true exactly when `s` spells a real calendar date
      inside the window; every other string, malformed or out of range, gives
      false. */
  lemma ValidateDateIff(s: string)
    ensures ValidateDate(s) <==> exists d: Date | IsValidDate(d) && InWindow2025(d) :: Spells(s, d)
  {
    if ValidateDate(s) {
      var d := ParseDate(s).value;
      ParseDateIff(s, d);
      InWindowIff(d);
    }
    if exists d: Date | IsValidDate(d) && InWindow2025(d) :: Spells(s, d) {
      var d: Date :| IsValidDate(d) && InWindow2025(d) && Spells(s, d);
      ParseDateIff(s, d);
      InWindowIff(d);
    }
  }

  /** The canonical text of a valid date is accepted exactly inside the window. */
  lemma ValidateFormat(d: Date)
    requires IsValidDate(d)
    ensures ValidateDate(Format(d)) <==> InWindow2025(d)
  {
    ParseFormat(d);
    InWindowIff(d);
  }

  /** Both endpoints are inside; the days just outside them are not. */
  lemma WindowEdges()
    ensures ValidateDate("2025-01-01") && ValidateDate("2025-09-15")
    ensures !ValidateDate("2024-12-31") && !ValidateDate("2025-09-16")
  {
    ValidateFormat(Date(2025, 1, 1));
    ValidateFormat(Date(2025, 9, 15));
    ValidateFormat(Date(2024, 12, 31));
    ValidateFormat(Date(2025, 9, 16));
  }

  /** Non-dates fail validation instead of escaping as an error. */
  lemma NonDatesRejected()
    ensures !ValidateDate("2025-13-01")    // month 13
    ensures !ValidateDate("2025-02-29")    // 2025 is not a leap year
    ensures !ValidateDate("2025-04-31")    // April has 30 days
    ensures !ValidateDate("15-01-2025")    // fields in the wrong order
    ensures !ValidateDate("2025-01-15x")   // trailing text
    ensures !ValidateDate("2025-01-150")
    ensures !ValidateDate(" 2025-01-15")
    ensures !ValidateDate("")
  {
  }

  /** `strptime` is more lenient than `YYYY-MM-DD`: a one-digit month or day
      and a space-padded day are accepted too. */
  lemma LenientSpellingsAccepted()
    ensures ValidateDate("2025-1-5") && ValidateDate("2025-01- 5") && ValidateDate("2025-9-15")
  {
  }
}
