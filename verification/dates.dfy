/** Calendar dates in the `%Y-%m-%d` format of Python's `datetime.strptime`
    and `strftime`, as used by `format_flight_date` in agents/flight_search.py.
    The full-date form is that of section 5.6 of RFC 3339 with the day limits
    of its section 5.7; on input, `strptime` also accepts a one-digit month, a
    one-digit day and a space-padded day. */
module Dates {
  import opened Wrappers

  datatype Date = Date(year: int, month: int, day: int)

  /** The Gregorian leap-year rule. */
  predicate IsLeapYear(y: int) {
    y % 4 == 0 && (y % 100 != 0 || y % 400 == 0)
  }

  function DaysInMonth(y: int, m: int): (n: int)
    requires 1 <= m <= 12
    ensures 28 <= n <= 31
    ensures m == 2 ==> (n == 29 <==> IsLeapYear(y))
  {
    if m == 2 then (if IsLeapYear(y) then 29 else 28)
    else if m in {4, 6, 9, 11} then 30
    else 31
  }

  /** What `datetime` accepts: year 1..9999, month 1..12, day within the month. */
  predicate IsValidDate(d: Date) {
    1 <= d.year <= 9999 && 1 <= d.month <= 12 && 1 <= d.day <= DaysInMonth(d.year, d.month)
  }

  predicate IsDigit(c: char) {
    '0' <= c <= '9'
  }

  function DigitValue(c: char): (n: int)
    requires IsDigit(c)
    ensures 0 <= n <= 9
  {
    c as int - '0' as int
  }

  function DigitChar(n: int): (c: char)
    requires 0 <= n <= 9
    ensures IsDigit(c) && DigitValue(c) == n
  {
    (n + '0' as int) as char
  }

  /** `%Y` on input: exactly four digits, read in base ten. */
  function ParseYear(t: string): Option<int> {
    if |t| == 4 && IsDigit(t[0]) && IsDigit(t[1]) && IsDigit(t[2]) && IsDigit(t[3])
    then Some(100 * (10 * DigitValue(t[0]) + DigitValue(t[1])) + (10 * DigitValue(t[2]) + DigitValue(t[3])))
    else None
  }

  /** `%m` on input: `1[0-2]`, `0[1-9]` or a single `[1-9]`. */
  function ParseMonth(t: string): (r: Option<int>)
    ensures r.Some? ==> 1 <= r.value <= 12
  {
    if |t| == 1 && '1' <= t[0] <= '9' then Some(DigitValue(t[0]))
    else if |t| == 2 && t[0] == '0' && '1' <= t[1] <= '9' then Some(DigitValue(t[1]))
    else if |t| == 2 && t[0] == '1' && '0' <= t[1] <= '2' then Some(10 + DigitValue(t[1]))
    else None
  }

  /** `%d` on input: `3[01]`, `[12][0-9]`, `0[1-9]`, a single `[1-9]`, or a
      space followed by `[1-9]`. */
  function ParseDay(t: string): (r: Option<int>)
    ensures r.Some? ==> 1 <= r.value <= 31
  {
    if |t| == 1 && '1' <= t[0] <= '9' then Some(DigitValue(t[0]))
    else if |t| == 2 && (t[0] == '0' || t[0] == ' ') && '1' <= t[1] <= '9' then Some(DigitValue(t[1]))
    else if |t| == 2 && '1' <= t[0] <= '2' && IsDigit(t[1]) then Some(10 * DigitValue(t[0]) + DigitValue(t[1]))
    else if |t| == 2 && t[0] == '3' && '0' <= t[1] <= '1' then Some(30 + DigitValue(t[1]))
    else None
  }

  /** Where the month ends: the month field is one or two characters long and
      is followed by `-`; 0 when neither fits. */
  function MonthLength(rest: string): (j: int)
    ensures j in {0, 1, 2}
    ensures j > 0 ==> j < |rest| && rest[j] == '-'
  {
    if |rest| >= 2 && rest[1] == '-' then 1
    else if |rest| >= 3 && rest[2] == '-' then 2
    else 0
  }

  /** `datetime.strptime(s, "%Y-%m-%d")`: the whole string must match the
      format, and the fields must form a valid date; `None` stands for the
      `ValueError` it raises otherwise. */
  function ParseIsoDate(s: string): (r: Option<Date>)
    ensures r.Some? ==> IsValidDate(r.value)
  {
    if |s| < 5 || s[4] != '-' then None
    else
      var rest := s[5..];
      var j := MonthLength(rest);
      if j == 0 then None
      else
        match (ParseYear(s[..4]), ParseMonth(rest[..j]), ParseDay(rest[j + 1..]))
        case (Some(y), Some(m), Some(d)) =>
          if IsValidDate(Date(y, m, d)) then Some(Date(y, m, d)) else None
        case _ => None
  }

  /** `%m` and `%d` on output: two digits, zero-padded. */
  function Pad2(n: int): (t: string)
    requires 0 <= n <= 99
    ensures |t| == 2 && IsDigit(t[0]) && IsDigit(t[1])
    ensures 10 * DigitValue(t[0]) + DigitValue(t[1]) == n
  {
    [DigitChar(n / 10), DigitChar(n % 10)]
  }

  /** `%Y` on output: four digits, zero-padded. */
  function Pad4(n: int): (t: string)
    requires 0 <= n <= 9999
    ensures |t| == 4
  {
    Pad2(n / 100) + Pad2(n % 100)
  }

  /** `date.strftime("%Y-%m-%d")`. */
  function Render(d: Date): (s: string)
    requires IsValidDate(d)
    ensures |s| == 10 && s[4] == '-' && s[7] == '-'
    ensures forall i :: 0 <= i < 10 && i != 4 && i != 7 ==> IsDigit(s[i])
  {
    Pad4(d.year) + "-" + Pad2(d.month) + "-" + Pad2(d.day)
  }

  lemma ParsePad4(n: int)
    requires 0 <= n <= 9999
    ensures ParseYear(Pad4(n)) == Some(n)
  {
    var hi, lo := Pad2(n / 100), Pad2(n % 100);
    assert Pad4(n)[0] == hi[0] && Pad4(n)[1] == hi[1];
    assert Pad4(n)[2] == lo[0] && Pad4(n)[3] == lo[1];
  }

  lemma ParsePad2Month(m: int)
    requires 1 <= m <= 12
    ensures ParseMonth(Pad2(m)) == Some(m)
  {
  }

  lemma ParsePad2Day(d: int)
    requires 1 <= d <= 31
    ensures ParseDay(Pad2(d)) == Some(d)
  {
  }

  /** Reading back a rendered date gives the date itself. */
  lemma ParseRender(d: Date)
    requires IsValidDate(d)
    ensures ParseIsoDate(Render(d)) == Some(d)
  {
    var s := Render(d);
    assert s[..4] == Pad4(d.year);
    var rest := s[5..];
    assert rest == Pad2(d.month) + "-" + Pad2(d.day);
    assert MonthLength(rest) == 2;
    assert rest[..2] == Pad2(d.month);
    assert rest[3..] == Pad2(d.day);
    ParsePad4(d.year);
    ParsePad2Month(d.month);
    ParsePad2Day(d.day);
  }

  /** Distinct valid dates render differently. */
  lemma RenderInjective(d1: Date, d2: Date)
    requires IsValidDate(d1) && IsValidDate(d2) && Render(d1) == Render(d2)
    ensures d1 == d2
  {
    ParseRender(d1);
    ParseRender(d2);
  }

  /** The spellings `strptime` accepts for a month: two digits, or one digit
      below 10. */
  function MonthForms(m: int): set<string>
    requires 1 <= m <= 12
  {
    {Pad2(m)} + (if m <= 9 then {[DigitChar(m)]} else {})
  }

  /** The spellings `strptime` accepts for a day: two digits, or below 10 a
      single digit or a space and a digit. */
  function DayForms(d: int): set<string>
    requires 1 <= d <= 31
  {
    {Pad2(d)} + (if d <= 9 then {[DigitChar(d)], [' ', DigitChar(d)]} else {})
  }

  /** Every way of writing `d` that `%Y-%m-%d` reads. */
  function Spellings(d: Date): set<string>
    requires IsValidDate(d)
  {
    set mt, dt | mt in MonthForms(d.month) && dt in DayForms(d.day) :: Pad4(d.year) + "-" + mt + "-" + dt
  }

  lemma DigitRoundTrip(c: char)
    requires IsDigit(c)
    ensures DigitChar(DigitValue(c)) == c
  {
  }

  /** Two digits are the zero-padded spelling of their value. */
  lemma TwoDigitsArePad2(t: string)
    requires |t| == 2 && IsDigit(t[0]) && IsDigit(t[1])
    ensures Pad2(10 * DigitValue(t[0]) + DigitValue(t[1])) == t
  {
    DigitRoundTrip(t[0]);
    DigitRoundTrip(t[1]);
  }

  lemma FourDigitsArePad4(t: string)
    requires ParseYear(t).Some?
    ensures 0 <= ParseYear(t).value <= 9999 && Pad4(ParseYear(t).value) == t
  {
    var hi := 10 * DigitValue(t[0]) + DigitValue(t[1]);
    var lo := 10 * DigitValue(t[2]) + DigitValue(t[3]);
    TwoDigitsArePad2(t[..2]);
    TwoDigitsArePad2(t[2..]);
    assert ParseYear(t).value / 100 == hi && ParseYear(t).value % 100 == lo;
    assert t == t[..2] + t[2..];
  }

  lemma MonthTokenIsForm(t: string)
    requires ParseMonth(t).Some?
    ensures t in MonthForms(ParseMonth(t).value)
  {
    if |t| == 2 {
      TwoDigitsArePad2(t);
    } else {
      DigitRoundTrip(t[0]);
      assert t == [DigitChar(ParseMonth(t).value)];
    }
  }

  lemma DayTokenIsForm(t: string)
    requires ParseDay(t).Some?
    ensures t in DayForms(ParseDay(t).value)
  {
    var d := ParseDay(t).value;
    if |t| == 1 {
      DigitRoundTrip(t[0]);
      assert t == [DigitChar(d)];
    } else if t[0] == ' ' {
      DigitRoundTrip(t[1]);
      assert t == [' ', DigitChar(d)];
    } else {
      TwoDigitsArePad2(t);
    }
  }

  lemma MonthFormParses(m: int, t: string)
    requires 1 <= m <= 12 && t in MonthForms(m)
    ensures ParseMonth(t) == Some(m)
  {
  }

  lemma DayFormParses(d: int, t: string)
    requires 1 <= d <= 31 && t in DayForms(d)
    ensures ParseDay(t) == Some(d)
  {
  }

  /** Reading a spelling: the year, a `-`, the month field, a `-`, the day field. */
  lemma ParseSpelling(d: Date, mt: string, dt: string)
    requires IsValidDate(d) && mt in MonthForms(d.month) && dt in DayForms(d.day)
    ensures ParseIsoDate(Pad4(d.year) + "-" + mt + "-" + dt) == Some(d)
  {
    var s := Pad4(d.year) + "-" + mt + "-" + dt;
    assert s[..4] == Pad4(d.year);
    var rest := s[5..];
    assert rest == mt + "-" + dt;
    assert 1 <= |mt| <= 2 && '-' !in mt;
    assert MonthLength(rest) == |mt|;
    assert rest[..|mt|] == mt;
    assert rest[|mt| + 1..] == dt;
    ParsePad4(d.year);
    MonthFormParses(d.month, mt);
    DayFormParses(d.day, dt);
  }

  /** Whatever `strptime` reads as `d` is one of the spellings of `d`. */
  lemma ParseIsoDateSound(s: string, d: Date)
    requires ParseIsoDate(s) == Some(d)
    ensures s in Spellings(d)
  {
    var rest := s[5..];
    var j := MonthLength(rest);
    var mt, dt := rest[..j], rest[j + 1..];
    FourDigitsArePad4(s[..4]);
    MonthTokenIsForm(mt);
    DayTokenIsForm(dt);
    assert s == s[..4] + "-" + mt + "-" + dt;
  }

  /** What `strptime(s, "%Y-%m-%d")` accepts, stated without the parser: `s`
      reads as `d` exactly when `d` is a valid date and `s` is one of its
      spellings. */
  lemma ParseIsoDateExact(s: string, d: Date)
    ensures ParseIsoDate(s) == Some(d) <==> IsValidDate(d) && s in Spellings(d)
  {
    if ParseIsoDate(s) == Some(d) {
      ParseIsoDateSound(s, d);
    }
    if IsValidDate(d) && s in Spellings(d) {
      var mt, dt :| mt in MonthForms(d.month) && dt in DayForms(d.day) && s == Pad4(d.year) + "-" + mt + "-" + dt;
      ParseSpelling(d, mt, dt);
    }
  }
}
