# Travel_It tools and sub-request derivation, modelled in Dafny

Travel_It is a travel-planning assistant. A coordinator agent (the trip
planner) asks three child agents for flights, accommodation and
activities. A budget agent estimates costs. Every agent can also use a few
deterministic tools. The language-model loop that drives the agents lives in
an external library. This project models the code the repository owns:

- the trip cost estimator `calculate_budget` (`BudgetTool`);
- how the coordinator builds each child agent's request: the fixed
  40/30/20 budget split, the field-by-field copy of trip parameters, and the
  forwarded usage ledger (`TripPlanner`);
- the accommodation agent's keyword scorer `estimate_location_quality`
  (`Accommodation`);
- the activity agent's underrated-location table and the keyword classifier
  that `analyze_location_image` applies to the vision model's answer
  (`Activity`);
- the budget agent's savings table `find_budget_alternatives` (`BudgetAgent`);
- the flight agent's date normaliser `format_flight_date` (`FlightSearch`,
  over the `%Y-%m-%d` parser and printer in `Dates`);
- the mock `search_web` and `scrape_website` tools (`SearchTool`,
  `ScrapeTool`).

Shared pieces: `Wrappers` holds `Option` (Python's `Optional`) and `Result`
(a value, or the exception raised instead). `Text` holds ASCII `str.lower()`,
the string `in` operator (`Contains`), keyword counting and first-match
keyword tables (`Rule`, `FirstHit`, `AllHits`).

Money and scores are `real`, so `0.1`, `0.4` and `299.99` are exact. Day and
traveler counts are `int`, as in the source. Apart from float overflow
(see "## Left out"), an exception the source can raise is a `Result.Err` or
an `Option.None` in the model, never a precondition.

## Model

| member | source | states |
|---|---|---|
| `Text.Lower` | agents/accommodation.py:55 | lower-casing keeps the length, maps each character by ASCII case folding, and leaves no upper-case letter |
| `Text.ContainsIffOccurs` | agents/accommodation.py:57 | `sub in s` holds exactly when `sub` occurs at some position of `s` |
| `Text.ContainsTransitive` | agents/activity.py:164-166 | a text containing `a` contains every substring of `a` (used for "very crowded" ⊇ "crowded") |
| `Text.LowerKeepsContains` | tools/search.py:23 | if `t` occurs in `s`, then `t.lower()` occurs in `s.lower()` |
| `Text.CountContained` | agents/accommodation.py:57 | the keyword-hit count never exceeds the number of keywords, and is zero exactly when no keyword occurs |
| `Text.CountIsPresentKeywords` | agents/accommodation.py:57 | over distinct keywords, the hit count is the number of distinct keywords present, however often each occurs |
| `Text.FirstHitIsFirstFiring` | agents/activity.py:148-155 | an `if`/`elif` keyword chain yields the value of the first firing rule, and nothing exactly when no rule fires |
| `Text.AllHits` | agents/activity.py:180-182 | the loop's output is an in-order subsequence of the table's values and holds exactly the values of firing rules |
| `Text.SubsequenceOfDistinct` | agents/activity.py:180-182 | an in-order selection from a duplicate-free table has no duplicates |
| `BudgetTool.AccommodationCost` | tools/budget.py:35-50 | nightly rate 50/100/200 for budget/mid-range/luxury, 75 for any other type, times the days, not times the travelers |
| `BudgetTool.TransportationCost` | tools/budget.py:40-51 | daily rate 10/40/60 for public/rental car/taxi, 20 otherwise, times the days |
| `BudgetTool.FoodCost` | tools/budget.py:45-52 | daily rate 30/60/100 for budget/mid-range/fine dining, 40 otherwise, times days times travelers |
| `BudgetTool.ActivitiesCost` | tools/budget.py:53 | nothing is charged for a trip with no traveler-days, and one traveler for one day is charged exactly the daily allowance |
| `BudgetTool.FlightTotal` | tools/budget.py:54 | a given non-zero flight cost is used as is; a missing cost or an explicit 0 falls back to 500 per traveler |
| `BudgetTool.PersonDays` | tools/budget.py:58 | the divisor is days times travelers, and is zero exactly when the days or the travelers are zero |
| `BudgetTool.PerPersonCostsScaleWithTravelers` | tools/budget.py:52-53 | food and activities for `k` travelers cost `k` times what one traveler pays |
| `BudgetTool.CostsScaleWithDays` | tools/budget.py:50-53 | accommodation, local transport, food and activities for `n` days cost `n` times a one-day trip |
| `BudgetTool.ActivitiesIsAllowancePerTravelerDay` | tools/budget.py:53 | activities cost exactly the daily allowance times the days times the travelers, for every request |
| `BudgetTool.Average` | tools/budget.py:58 | for a non-zero divisor, the average times the divisor gives back the total |
| `BudgetTool.Tips` | tools/budget.py:60-66 | five tips, the first the shoulder-season tip naming the destination |
| `BudgetTool.Assemble` | tools/budget.py:55-58 | from any six components and a non-zero number of traveler-days: ten times the surcharge is the sum of the four non-flight parts, the total is the six-part sum, the daily average is the total divided by the traveler-days, currency "USD" |
| `BudgetTool.CalculateBudget` | tools/budget.py:29-78 | fails exactly on zero traveler-days; otherwise the components as above, a surcharge of a tenth of all components except flights, a total that is exactly the six-part sum, a daily average that is the total divided by the traveler-days (`Average`: average times divisor is the total), currency "USD", five tips, the first naming the destination |
| `BudgetTool.ComponentsNonNegative` | tools/budget.py:50-54 | with non-negative inputs no component is negative |
| `BudgetTool.TotalBoundsComponents` | tools/budget.py:55-57 | with positive days and travelers and non-negative costs, the estimate succeeds and every part, the surcharge included, lies between 0 and the total |
| `BudgetTool.PerDayCostsIgnoreTravelers` | tools/budget.py:50-51 | accommodation and local transport do not depend on the number of travelers |
| `SearchTool.SearchWeb` | tools/search.py:16-55 | "flight" in the lower-cased query gives the two flight results and wins over "accommodation"; "accommodation" alone gives the two accommodation results; otherwise the one travel-guide result; never empty, at most two |
| `SearchTool.AnyCaseFlightWins` | tools/search.py:23 | any capitalisation of "flight" in the query selects the flight results |
| `SearchTool.AnyCaseAccommodation` | tools/search.py:36 | any capitalisation of "accommodation", with no "flight", selects the accommodation results |
| `SearchTool.SearchDependsOnLoweredQueryOnly` | tools/search.py:8-23 | queries equal after lower-casing get the same answer, whatever `num_results` is |
| `ScrapeTool.ScrapeWebsite` | tools/scrape.py:17-52 | always succeeds with no error message; flight data (EA123 at 299.99, BA456 at 249.99) is present exactly when the URL contains "flights"; otherwise generic content |
| `ScrapeTool.ScrapeIgnoresElements` | tools/scrape.py:8 | `elements_to_extract` never changes the result |
| `ScrapeTool.UpperCaseFlightsIsGeneric` | tools/scrape.py:24 | the URL is not lower-cased: ".../FLIGHTS" takes the generic branch |
| `Accommodation.EstimateLocationQuality` | agents/accommodation.py:42-68 | each score is the number of distinct keywords of its list in the lower-cased description over 5; underrated holds exactly when one of the five underrated phrases occurs |
| `Accommodation.ScoreIsFractionPresent` | agents/accommodation.py:58 | with five distinct keywords, `min(count / 5, 1.0)` equals present-keywords / 5: the cap never binds |
| `Accommodation.ScoresAreFifths` | agents/accommodation.py:57-64 | all three scores are of the form k/5 with k in 0..5, hence in [0, 1] |
| `Accommodation.QualityDependsOnLoweredText` | agents/accommodation.py:55 | descriptions equal after lower-casing score the same |
| `Accommodation.EmptyDescriptionScoresZero` | agents/accommodation.py:43-66 | an empty description scores 0, 0, 0 and is not underrated |
| `Activity.FindUnderratedLocations` | agents/activity.py:46-102 | "paris" in the lower-cased location gives the Paris pair even when "new york" also occurs; "new york" alone the New York pair; otherwise the generic pair; always two spots of non-negative cost |
| `Activity.LocationTypePrecedence` | agents/activity.py:142-155 | beach/coast > mountain/hill > city/urban > park/garden > "unknown", first match wins |
| `Activity.CrowdednessPrecedence` | agents/activity.py:158-167 | very-low words > few-people words > moderate words > crowded/busy/popular > very-crowded words > "unknown", first match wins |
| `Activity.NotCrowdedIsLow` | agents/activity.py:160-161 | "not crowded" gives "low" unless a very-low word occurs, although it contains "crowded" |
| `Activity.VeryCrowdedNeverVeryHigh` | agents/activity.py:164-167 | a text containing "very crowded" never reads as "very high" |
| `Activity.PossibleActivitiesExact` | agents/activity.py:169-182 | the activity list is an in-order, duplicate-free selection of the eight categories holding exactly those with a keyword hit |
| `Activity.AnalyzeLocationImage` | agents/activity.py:138-208 | a 200 answer is classified on its lower-cased text and keeps the raw text; any other status or an exception gives "unknown", "unknown", no activities, not underrated, and the error |
| `BudgetAgent.FindBudgetAlternatives` | agents/budget.py:47-73 | ("accommodation", "luxury") and ("accommodation", "mid-range") get their own pairs; every other pair, ("accommodation", "budget") included, gets the general pair; always two suggestions |
| `BudgetAgent.CapitalisedPreferenceFallsBack` | agents/budget.py:65 | matching is case-sensitive: "Luxury" falls back |
| `Dates.DaysInMonth` | agents/flight_search.py:45 | months have 28 to 31 days; February has 29 exactly in Gregorian leap years |
| `Dates.ParseIsoDate` | agents/flight_search.py:45 | whatever `strptime` reads is a valid date: year 1..9999, month 1..12, day within its month |
| `Dates.Render` | agents/flight_search.py:46 | `strftime` output is ten characters, digits with `-` at positions 4 and 7 |
| `Dates.ParseRender` | agents/flight_search.py:45-46 | reading a rendered valid date gives the date back |
| `Dates.RenderInjective` | agents/flight_search.py:46 | distinct valid dates render differently |
| `Dates.ParseIsoDateSound` | agents/flight_search.py:45 | any string `strptime` reads as `d` is one of the spellings of `d`: a four-digit year, the month field and the day field, with `-` between them |
| `Dates.ParseIsoDateExact` | agents/flight_search.py:45 | `s` reads as `d` exactly when `d` is valid and `s` is one of its spellings (4-digit year; month two digits or one; day two digits, one, or space and digit) |
| `FlightSearch.FormatFlightDate` | agents/flight_search.py:43-48 | an accepted string comes back as the rendering of the date it reads as; a rejected one comes back unchanged; total over strings |
| `FlightSearch.CanonicalDateUnchanged` | agents/flight_search.py:45-46 | an already canonical valid date is returned unchanged |
| `FlightSearch.FormatIdempotent` | agents/flight_search.py:44-48 | normalising twice is normalising once |
| `FlightSearch.FormatMeaning` | agents/flight_search.py:44-48 | the result is either the canonical form of the date the input spells, or the input itself when it spells no valid date |
| `FlightSearch.ShortFieldsArePadded` | agents/flight_search.py:45-46 | "2024-1-5" and "2024-01- 5" both become "2024-01-05" |
| `FlightSearch.MonthThirteenPassesThrough` | agents/flight_search.py:47-48 | "2024-13-01" is returned unchanged |
| `FlightSearch.NonLeapDayPassesThrough` | agents/flight_search.py:47-48 | "2023-02-29" is returned unchanged |
| `FlightSearch.YearZeroPassesThrough` | agents/flight_search.py:47-48 | "0000-01-01" is returned unchanged (year 0 is out of range) |
| `FlightSearch.LeapDayAccepted` | agents/flight_search.py:45 | "2024-02-29" is read as 29 February 2024 |
| `TripPlanner.SharesWithinBudget` | agents/trip_planner.py:63-105 | the shares 0.4, 0.3 and 0.2 of the budget sum to 0.9 of it; for a non-negative budget each, and their sum, is at most the budget |
| `TripPlanner.SearchFlights` | agents/trip_planner.py:53-72 | returns the flight agent's output unchanged, for a call with the coordinator's ledger, origin, destination, travelers, departure = start, return = end, max budget 0.4 × budget and no preferred airlines |
| `TripPlanner.SearchAccommodations` | agents/trip_planner.py:75-93 | returns the accommodation agent's output unchanged, for a call with the coordinator's ledger, location = destination, check-in/out = start/end, guests = travelers, the accommodation preference, one room, max budget 0.3 × budget and no amenities |
| `TripPlanner.PlanActivities` | agents/trip_planner.py:96-114 | returns the activity agent's output unchanged, for a call with the coordinator's ledger, location = destination, the same dates, travelers and interests, max budget 0.2 × budget, not outdoor-only, underrated preferred |
| `TripPlanner.CallsMatchDescription` | agents/trip_planner.py:57-111 | the three calls built are the ones described field by field, and all three carry the same ledger as the coordinator |
| `TripPlanner.TransportAndDiningNotForwarded` | agents/trip_planner.py:13-106 | changing the transportation or dining preference changes none of the three child calls |

## Left out

- The agent loop, tool dispatch, the usage ceiling and result assembly: these belong to the agent library, which is not part of this model. A child run is a function parameter. The usage ledger is a value of an uninterpreted type that is only passed along.
- The network call in `analyze_location_image`: the model starts from its reply, a status and text or a raised exception. The exception message text is kept as given. The `f"..."` error strings are kept as structured values (`HttpFailure(status)`, `ExceptionRaised(message)`).
- The `print` calls in the tools: output only.
- Floating point: the model uses exact reals, so `x * 0.1`, `budget * 0.4` and the like carry no rounding.
- `str.lower()` is ASCII case folding only, with no Unicode case mapping.
- `Dates.ParseIsoDate`: Python's `\d` in `strptime` also matches non-ASCII digits; the model reads ASCII digits only.
- `Dates.Render`: always pads the year to four digits. On platforms whose C `strftime` does not pad years below 1000, Python prints those years unpadded; that output is not modelled.
- `BudgetTool.CalculateBudget`: float range is not modelled. Python raises `OverflowError` when a day or traveler count of 2**1024 or more is converted to float (for instance in `activities_budget * duration_days * travelers`, even with a zero allowance), and large finite inputs can give `inf` totals; the model returns `Ok` with the exact real values there. Also, no separate lemma says the surcharge ignores the flight cost. The contract's surcharge formula leaves flights out, which states the same thing.
- The Pydantic schemas of models/*.py, the prompts, provider and API-key configuration, the weather, traffic and flight-status HTTP wrappers, and both user interfaces: no logic to model.
- Default values of the dependency records (`rooms = 1`, `prefer_underrated = True`, ...) are written out where the coordinator relies on them. There is no separate constructor with defaults.
