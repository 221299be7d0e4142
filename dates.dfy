/** Date validation of the exchange-rate client (`validate_date`).

    The client parses its date argument with `datetime.strptime(s, '%Y-%m-%d')`
    and accepts it only inside the inclusive window 2025-01-01 .. 2025-09-15.
    `strptime` matches the string against the regular expressions CPython uses
    for the three directives:

      %Y  \d\d\d\d                          exactly four digits
      %m  1[0-2] | 0[1-9] | [1-9]           one or two digits, 1..12
      %d  3[01] | [12]\d | 0[1-9] | [1-9] | ' '[1-9]
                                            one or two digits, 1..31, or a
                                            space followed by one digit

    tried in that order, with `re.match` (anchored at the start only) and a
    separate "unconverted data remains" error when the match stops before the
    end of the string.  The parsed fields are then handed to the `datetime`
    constructor, which rejects a year below 1 and a day past the end of the
    month.  Every one of these failures is a `ValueError`, which
    `validate_date` turns into `false`.

    The alternatives are modelled as a first-match choice.  Backtracking into
    an earlier alternative can never rescue a failed match here: a shorter
    month leaves a digit where the `-` must be, and the day is the last field,
    so the first day alternative that matches ends the regular expression. */
module Dates {
  import opened Wrappers

  datatype Date = Date(year: int, month: int, day: int)

  // ---------------------------------------------------------------------
  // Calendar

  predicate IsLeapYear(y: int) {
    y % 4 == 0 && (y % 100 != 0 || y % 400 == 0)
  }

  function DaysInMonth(y: int, m: int): (n: int)
    requires 1 <= m <= 12
    ensures 28 <= n <= 31
    ensures n == 29 <==> m == 2 && IsLeapYear(y)
    ensures n == 28 <==> m == 2 && !IsLeapYear(y)
  {
    if m == 2 then (if IsLeapYear(y) then 29 else 28)
    else if m == 4 || m == 6 || m == 9 || m == 11 then 30
    else 31
  }

  /** What the `datetime` constructor accepts: MINYEAR = 1, MAXYEAR = 9999. */
  predicate IsValidDate(d: Date) {
    && 1 <= d.year <= 9999
    && 1 <= d.month <= 12
    && 1 <= d.day <= DaysInMonth(d.year, d.month)
  }

  /** `datetime` objects compare field by field: year, then month, then day
      (the time of day is midnight on both sides). */
  predicate NotAfter(a: Date, b: Date) {
    || a.year < b.year
    || (a.year == b.year && a.month < b.month)
    || (a.year == b.year && a.month == b.month && a.day <= b.day)
  }

  const MinDate := Date(2025, 1, 1)
  const MaxDate := Date(2025, 9, 15)

  predicate InWindow(d: Date) {
    NotAfter(MinDate, d) && NotAfter(d, MaxDate)
  }

  // ---------------------------------------------------------------------
  // Directives of the format

  predicate IsDigit(c: char) { '0' <= c <= '9' }

  function DigitValue(c: char): (v: int)
    requires IsDigit(c)
    ensures 0 <= v <= 9
  {
    c as int - '0' as int
  }

  /** A directive that matched: the number it denotes and how many
      characters it consumed. */
  datatype Field = Field(value: int, width: nat)

  /** `%Y`: exactly four digits. */
  function MatchYear(t: string): (r: Option<Field>)
    ensures r.Some? ==> r.value.width == 4 && 0 <= r.value.value <= 9999
  {
    if |t| >= 4 && IsDigit(t[0]) && IsDigit(t[1]) && IsDigit(t[2]) && IsDigit(t[3])
    then Some(Field(1000 * DigitValue(t[0]) + 100 * DigitValue(t[1])
                    + 10 * DigitValue(t[2]) + DigitValue(t[3]), 4))
    else None
  }

  /** `%m`: the alternatives `1[0-2]`, `0[1-9]`, `[1-9]`, in that order. */
  function MatchMonth(t: string): (r: Option<Field>)
    ensures r.Some? ==> 1 <= r.value.width <= 2 && r.value.width <= |t|
    ensures r.Some? ==> 1 <= r.value.value <= 12
  {
    if |t| >= 2 && t[0] == '1' && '0' <= t[1] <= '2' then Some(Field(10 + DigitValue(t[1]), 2))
    else if |t| >= 2 && t[0] == '0' && '1' <= t[1] <= '9' then Some(Field(DigitValue(t[1]), 2))
    else if |t| >= 1 && '1' <= t[0] <= '9' then Some(Field(DigitValue(t[0]), 1))
    else None
  }

  /** `%d`: the alternatives `3[01]`, `[12]\d`, `0[1-9]`, `[1-9]`, `' '[1-9]`,
      in that order. */
  function MatchDay(t: string): (r: Option<Field>)
    ensures r.Some? ==> 1 <= r.value.width <= 2 && r.value.width <= |t|
    ensures r.Some? ==> 1 <= r.value.value <= 31
  {
    if |t| >= 2 && t[0] == '3' && '0' <= t[1] <= '1' then Some(Field(30 + DigitValue(t[1]), 2))
    else if |t| >= 2 && '1' <= t[0] <= '2' && IsDigit(t[1]) then Some(Field(10 * DigitValue(t[0]) + DigitValue(t[1]), 2))
    else if |t| >= 2 && t[0] == '0' && '1' <= t[1] <= '9' then Some(Field(DigitValue(t[1]), 2))
    else if |t| >= 1 && '1' <= t[0] <= '9' then Some(Field(DigitValue(t[0]), 1))
    else if |t| >= 2 && t[0] == ' ' && '1' <= t[1] <= '9' then Some(Field(DigitValue(t[1]), 2))
    else None
  }

  /** `datetime.strptime(s, '%Y-%m-%d')`, with `None` for every `ValueError`
      it raises. */
  function ParseDate(s: string): (r: Option<Date>)
    ensures r.Some? ==> IsValidDate(r.value)
    ensures r.Some? ==> 8 <= |s| <= 10
  {
    match MatchYear(s)
    case None => None
    case Some(y) =>
      if |s| < 5 || s[4] != '-' then None
      else
        match MatchMonth(s[5..])
        case None => None
        case Some(m) =>
          var dayAt := 6 + m.width;
          if |s| < dayAt || s[dayAt - 1] != '-' then None
          else
            match MatchDay(s[dayAt..])
            case None => None
            case Some(d) =>
              if dayAt + d.width != |s| then None   // unconverted data remains
              else
                var date := Date(y.value, m.value, d.value);
                if IsValidDate(date) then Some(date) else None
  }

  /** `validate_date`: true exactly when the string parses and the date lies
      in the window, that is in 2025 and no later than 15 September. */
  function ValidateDate(s: string): (ok: bool)
    ensures ok <==> && ParseDate(s).Some?
                    && ParseDate(s).value.year == 2025
                    && (ParseDate(s).value.month < 9
                        || (ParseDate(s).value.month == 9 && ParseDate(s).value.day <= 15))
  {
    match ParseDate(s)
    case None => false
    case Some(d) => InWindow(d)
  }
}
