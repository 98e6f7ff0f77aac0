/** The flight agent's dependency bundle and its date tool
    (`format_flight_date` in agents/flight_search.py). */
module FlightSearch {
  import opened Wrappers
  import opened Dates

  /** `FlightSearchDeps`; `returnDate`, `maxBudget` and `preferredAirlines`
      default to `None`, `travelers` to 1. */
  datatype FlightSearchDeps = FlightSearchDeps(
    origin: string,
    destination: string,
    departureDate: string,
    returnDate: Option<string>,
    travelers: int,
    maxBudget: Option<real>,
    preferredAirlines: Option<seq<string>>)

  /** `format_flight_date`: a string `strptime` reads as a date comes back in
      zero-padded `YYYY-MM-DD` form; any other string, including a well-formed
      but impossible date, comes back unchanged. It never fails. */
  function FormatFlightDate(s: string): (r: string)
    ensures ParseIsoDate(s).Some? ==> r == Render(ParseIsoDate(s).value)
    ensures ParseIsoDate(s).None? ==> r == s
  {
    match ParseIsoDate(s)
    case Some(d) => Render(d)
    case None => s
  }

  /** A canonical valid date is returned unchanged. */
  lemma CanonicalDateUnchanged(d: Date)
    requires IsValidDate(d)
    ensures FormatFlightDate(Render(d)) == Render(d)
  {
    ParseRender(d);
  }

  /** Normalising twice is normalising once. */
  lemma FormatIdempotent(s: string)
    ensures FormatFlightDate(FormatFlightDate(s)) == FormatFlightDate(s)
  {
    if ParseIsoDate(s).Some? {
      CanonicalDateUnchanged(ParseIsoDate(s).value);
    }
  }

  /** The result is canonical exactly for accepted input: either a rendered
      valid date that spells the same date as the input, or the input itself. */
  lemma FormatMeaning(s: string)
    ensures var r := FormatFlightDate(s);
      || (exists d :: IsValidDate(d) && s in Spellings(d) && r == Render(d))
      || (r == s && forall d :: IsValidDate(d) ==> s !in Spellings(d))
  {
    match ParseIsoDate(s)
    case Some(d) =>
      ParseIsoDateExact(s, d);
    case None =>
      forall d | IsValidDate(d) ensures s !in Spellings(d) {
        ParseIsoDateExact(s, d);
      }
  }

  /** One-digit and space-padded fields are padded with zeros. */
  lemma ShortFieldsArePadded()
    ensures FormatFlightDate("2024-1-5") == "2024-01-05"
    ensures FormatFlightDate("2024-01- 5") == "2024-01-05"
  {
    var d := Date(2024, 1, 5);
    ParseSpelling(d, [DigitChar(1)], [DigitChar(5)]);
    ParseSpelling(d, Pad2(1), [' ', DigitChar(5)]);
    assert Pad4(2024) + "-" + [DigitChar(1)] + "-" + [DigitChar(5)] == "2024-1-5";
    assert Pad4(2024) + "-" + Pad2(1) + "-" + [' ', DigitChar(5)] == "2024-01- 5";
    assert Render(d) == "2024-01-05";
  }

  /** Month 13 is rejected and passed through. */
  lemma MonthThirteenPassesThrough()
    ensures FormatFlightDate("2024-13-01") == "2024-13-01"
  {
    var s := "2024-13-01";
    assert s[5..] == "13-01";
    assert MonthLength(s[5..]) == 2;
    assert ParseMonth(s[5..][..2]) == None;
  }

  /** 29 February outside a leap year is rejected and passed through. */
  lemma NonLeapDayPassesThrough()
    ensures FormatFlightDate("2023-02-29") == "2023-02-29"
  {
    var s := "2023-02-29";
    assert !IsLeapYear(2023);
    assert s[..4] == "2023" && s[5..] == "02-29";
    assert MonthLength(s[5..]) == 2;
    assert ParseYear(s[..4]) == Some(2023);
    assert ParseMonth(s[5..][..2]) == Some(2);
    assert s[5..][3..] == "29";
    assert ParseDay("29") == Some(29);
    assert !IsValidDate(Date(2023, 2, 29));
  }

  /** Year 0 is outside `datetime`'s range: rejected and passed through. */
  lemma YearZeroPassesThrough()
    ensures FormatFlightDate("0000-01-01") == "0000-01-01"
  {
    var s := "0000-01-01";
    assert s[..4] == "0000" && s[5..] == "01-01";
    assert MonthLength(s[5..]) == 2;
    assert ParseYear(s[..4]) == Some(0);
  }

  /** 29 February of a leap year is accepted (and already canonical). */
  lemma LeapDayAccepted()
    ensures ParseIsoDate("2024-02-29") == Some(Date(2024, 2, 29))
  {
    assert IsLeapYear(2024);
    var leapDay := Date(2024, 2, 29);
    ParseSpelling(leapDay, Pad2(2), Pad2(29));
    assert Pad4(2024) + "-" + Pad2(2) + "-" + Pad2(29) == "2024-02-29";
  }
}
