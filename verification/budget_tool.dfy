/** The trip cost estimator exposed to the agents as a tool
    (`calculate_budget` in tools/budget.py). */
module BudgetTool {
  import opened Wrappers

  datatype BudgetRequest = BudgetRequest(
    destination: string,
    durationDays: int,
    travelers: int,
    accommodationType: string,   // "budget", "mid-range", "luxury", ...
    transportationType: string,  // "public", "rental car", "taxi", ...
    diningPreference: string,    // "budget", "mid-range", "fine dining", ...
    activitiesBudget: real,      // per person per day
    flightCost: Option<real>)

  datatype BudgetBreakdown = BudgetBreakdown(
    accommodation: real,
    localTransportation: real,
    food: real,
    activities: real,
    flights: real,
    miscellaneous: real,
    total: real,
    currency: string,
    dailyAverage: real,
    tips: seq<string>)

  /** Apart from float overflow, the only way the estimator fails:
      `total / (days * travelers)` with a zero divisor. */
  datatype BudgetError = DivisionByZero

  /** `accommodation_cost_per_night.get(type, 75)`: the three-entry table
      with its default. */
  function NightlyRate(accommodationType: string): int {
    if accommodationType == "budget" then 50
    else if accommodationType == "mid-range" then 100
    else if accommodationType == "luxury" then 200
    else 75
  }

  /** `transportation_cost_per_day.get(type, 20)`. */
  function TransportDailyRate(transportationType: string): int {
    if transportationType == "public" then 10
    else if transportationType == "rental car" then 40
    else if transportationType == "taxi" then 60
    else 20
  }

  /** `food_cost_per_day.get(preference, 40)`. */
  function FoodDailyRate(diningPreference: string): int {
    if diningPreference == "budget" then 30
    else if diningPreference == "mid-range" then 60
    else if diningPreference == "fine dining" then 100
    else 40
  }

  /** `accommodation_cost_per_night.get(type, 75) * duration_days`: the
      nightly rate of the accommodation type times the number of nights,
      whatever the number of travelers. */
  function AccommodationCost(req: BudgetRequest): (r: real)
    ensures var days := req.durationDays as real;
      && (req.accommodationType == "budget" ==> r == 50.0 * days)
      && (req.accommodationType == "mid-range" ==> r == 100.0 * days)
      && (req.accommodationType == "luxury" ==> r == 200.0 * days)
      && (req.accommodationType !in {"budget", "mid-range", "luxury"} ==> r == 75.0 * days)
  {
    NightlyRate(req.accommodationType) as real * req.durationDays as real
  }

  /** `transportation_cost_per_day.get(type, 20) * duration_days`. */
  function TransportationCost(req: BudgetRequest): (r: real)
    ensures var days := req.durationDays as real;
      && (req.transportationType == "public" ==> r == 10.0 * days)
      && (req.transportationType == "rental car" ==> r == 40.0 * days)
      && (req.transportationType == "taxi" ==> r == 60.0 * days)
      && (req.transportationType !in {"public", "rental car", "taxi"} ==> r == 20.0 * days)
  {
    TransportDailyRate(req.transportationType) as real * req.durationDays as real
  }

  /** `duration_days * travelers`, the number of traveler-days; zero exactly
      when one of its factors is. */
  function PersonDays(req: BudgetRequest): (n: real)
    ensures n == req.durationDays as real * req.travelers as real
    ensures n == 0.0 <==> req.durationDays == 0 || req.travelers == 0
  {
    req.durationDays as real * req.travelers as real
  }

  /** `food_cost_per_day.get(preference, 40) * duration_days * travelers`. */
  function FoodCost(req: BudgetRequest): (r: real)
    ensures var personDays := PersonDays(req);
      && (req.diningPreference == "budget" ==> r == 30.0 * personDays)
      && (req.diningPreference == "mid-range" ==> r == 60.0 * personDays)
      && (req.diningPreference == "fine dining" ==> r == 100.0 * personDays)
      && (req.diningPreference !in {"budget", "mid-range", "fine dining"} ==> r == 40.0 * personDays)
  {
    FoodDailyRate(req.diningPreference) as real * PersonDays(req)
  }

  /** `activities_budget * duration_days * travelers`: the per-person daily
      allowance over all traveler-days. */
  function ActivitiesCost(req: BudgetRequest): (r: real)
    ensures req.durationDays == 0 || req.travelers == 0 ==> r == 0.0
    ensures req.durationDays == 1 && req.travelers == 1 ==> r == req.activitiesBudget
  {
    req.activitiesBudget * PersonDays(req)
  }

  /** Python's `flight_cost if flight_cost else 500 * travelers`: a missing
      cost and an explicit 0 both fall back to 500 per traveler. */
  function FlightTotal(req: BudgetRequest): (r: real)
    ensures req.flightCost.Some? && req.flightCost.value != 0.0 ==> r == req.flightCost.value
    ensures req.flightCost == None || req.flightCost == Some(0.0) ==> r == 500.0 * req.travelers as real
  {
    match req.flightCost
    case Some(c) => if c != 0.0 then c else 500.0 * req.travelers as real
    case None => 500.0 * req.travelers as real
  }

  /** The five fixed tips; only the first mentions the destination. */
  function Tips(destination: string): (t: seq<string>)
    ensures |t| == 5
    ensures t[0] == "Consider visiting " + destination + " during shoulder season for better prices"
  {
    [ "Consider visiting " + destination + " during shoulder season for better prices",
      "Book accommodation with a kitchen to save on food costs",
      "Look for city passes that include multiple attractions",
      "Use public transportation to save on local travel costs",
      "Check for free walking tours or museum days" ]
  }

  /** `total / n` for a non-zero `n`. */
  function Average(total: real, n: real): (a: real)
    requires n != 0.0
    ensures a * n == total
  {
    total / n
  }

  lemma Reassociate(a: real, n: real, k: real)
    ensures a * (n * k) == n * (a * k)
  {
  }

  lemma ProductNonNegative(a: real, b: real)
    requires a >= 0.0 && b >= 0.0
    ensures a * b >= 0.0
  {
  }

  /** The breakdown assembled from its six components and a non-zero number
      of traveler-days: the 10% surcharge on all but flights, the total and
      the daily average. */
  function Assemble(destination: string, accommodation: real, transportation: real, food: real,
                    activities: real, flights: real, personDays: real): (b: BudgetBreakdown)
    requires personDays != 0.0
    ensures b.accommodation == accommodation && b.localTransportation == transportation
    ensures b.food == food && b.activities == activities && b.flights == flights
    ensures 10.0 * b.miscellaneous == accommodation + transportation + food + activities
    ensures b.total == accommodation + transportation + food + activities + flights + b.miscellaneous
    ensures b.dailyAverage == Average(b.total, personDays)
    ensures b.currency == "USD"
    ensures |b.tips| == 5
    ensures b.tips[0] == "Consider visiting " + destination + " during shoulder season for better prices"
  {
    var miscellaneous := (accommodation + transportation + food + activities) * 0.1;
    var total := accommodation + transportation + food + activities + flights + miscellaneous;
    BudgetBreakdown(
      accommodation, transportation, food, activities, flights, miscellaneous,
      total, "USD", Average(total, personDays), Tips(destination))
  }

  /** `calculate_budget`: per-component costs, a 10% surcharge on everything
      but flights, their total, and the average per traveler-day. Apart from
      float overflow, fails only when the trip has zero traveler-days. */
  function CalculateBudget(req: BudgetRequest): (r: Result<BudgetBreakdown, BudgetError>)
    ensures r.Err? <==> req.durationDays == 0 || req.travelers == 0
    ensures r.Ok? ==> r.value.accommodation == AccommodationCost(req)
    ensures r.Ok? ==> r.value.localTransportation == TransportationCost(req)
    ensures r.Ok? ==> r.value.food == FoodCost(req)
    ensures r.Ok? ==> r.value.activities == ActivitiesCost(req)
    ensures r.Ok? ==> r.value.flights == FlightTotal(req)
    ensures r.Ok? ==> (10.0 * r.value.miscellaneous
      == r.value.accommodation + r.value.localTransportation + r.value.food + r.value.activities)
    ensures r.Ok? ==> (r.value.total
      == r.value.accommodation + r.value.localTransportation + r.value.food + r.value.activities
         + r.value.flights + r.value.miscellaneous)
    ensures r.Ok? ==> r.value.dailyAverage == Average(r.value.total, PersonDays(req))
    ensures r.Ok? ==> r.value.currency == "USD"
    ensures r.Ok? ==> |r.value.tips| == 5
    ensures r.Ok? ==> r.value.tips[0] == "Consider visiting " + req.destination + " during shoulder season for better prices"
  {
    if req.durationDays == 0 || req.travelers == 0 then Err(DivisionByZero)
    else
      Ok(Assemble(req.destination, AccommodationCost(req), TransportationCost(req), FoodCost(req),
                  ActivitiesCost(req), FlightTotal(req), PersonDays(req)))
  }

  /** Accommodation and local transport are charged per day only: the number
      of travelers does not change them. */
  lemma PerDayCostsIgnoreTravelers(req: BudgetRequest, travelers: int)
    ensures AccommodationCost(req) == AccommodationCost(req.(travelers := travelers))
    ensures TransportationCost(req) == TransportationCost(req.(travelers := travelers))
  {
  }

  /** Food and activities are charged per traveler: `k` travelers pay `k`
      times what one traveler would. */
  lemma PerPersonCostsScaleWithTravelers(req: BudgetRequest)
    ensures FoodCost(req) == req.travelers as real * FoodCost(req.(travelers := 1))
    ensures ActivitiesCost(req) == req.travelers as real * ActivitiesCost(req.(travelers := 1))
  {
    var one := req.(travelers := 1);
    var k := req.travelers as real;
    assert PersonDays(req) == k * PersonDays(one);
  }

  lemma AccommodationScalesWithDays(req: BudgetRequest)
    ensures AccommodationCost(req) == req.durationDays as real * AccommodationCost(req.(durationDays := 1))
  {
  }

  lemma TransportationScalesWithDays(req: BudgetRequest)
    ensures TransportationCost(req) == req.durationDays as real * TransportationCost(req.(durationDays := 1))
  {
  }

  lemma FoodScalesWithDays(req: BudgetRequest)
    ensures FoodCost(req) == req.durationDays as real * FoodCost(req.(durationDays := 1))
  {
    var n, k := req.durationDays as real, req.travelers as real;
    assert PersonDays(req) == n * k;
    assert PersonDays(req.(durationDays := 1)) == k;
    Reassociate(FoodDailyRate(req.diningPreference) as real, n, k);
  }

  lemma ActivitiesScaleWithDays(req: BudgetRequest)
    ensures ActivitiesCost(req) == req.durationDays as real * ActivitiesCost(req.(durationDays := 1))
  {
    var n, k := req.durationDays as real, req.travelers as real;
    assert PersonDays(req) == n * k;
    assert PersonDays(req.(durationDays := 1)) == k;
    Reassociate(req.activitiesBudget, n, k);
  }

  /** The activities line in one place: the daily allowance times the days
      times the travelers. */
  lemma ActivitiesIsAllowancePerTravelerDay(req: BudgetRequest)
    ensures ActivitiesCost(req) == req.activitiesBudget * req.durationDays as real * req.travelers as real
  {
    var oneDay := req.(durationDays := 1);
    ActivitiesScaleWithDays(req);
    PerPersonCostsScaleWithTravelers(oneDay);
    assert ActivitiesCost(oneDay.(travelers := 1)) == req.activitiesBudget;
    Reassociate(req.activitiesBudget, req.durationDays as real, req.travelers as real);
  }

  /** Every component but flights is charged per day: a trip of `n` days
      costs `n` times a one-day trip. */
  lemma CostsScaleWithDays(req: BudgetRequest)
    ensures var oneDay := req.(durationDays := 1); var n := req.durationDays as real;
      && AccommodationCost(req) == n * AccommodationCost(oneDay)
      && TransportationCost(req) == n * TransportationCost(oneDay)
      && FoodCost(req) == n * FoodCost(oneDay)
      && ActivitiesCost(req) == n * ActivitiesCost(oneDay)
  {
    AccommodationScalesWithDays(req);
    TransportationScalesWithDays(req);
    FoodScalesWithDays(req);
    ActivitiesScaleWithDays(req);
  }

  /** With non-negative inputs no component of the estimate is negative. */
  lemma ComponentsNonNegative(req: BudgetRequest)
    requires req.durationDays >= 0 && req.travelers >= 0 && req.activitiesBudget >= 0.0
    requires req.flightCost.Some? ==> req.flightCost.value >= 0.0
    ensures AccommodationCost(req) >= 0.0 && TransportationCost(req) >= 0.0
    ensures FoodCost(req) >= 0.0 && ActivitiesCost(req) >= 0.0 && FlightTotal(req) >= 0.0
  {
    var days := req.durationDays as real;
    ProductNonNegative(NightlyRate(req.accommodationType) as real, days);
    ProductNonNegative(TransportDailyRate(req.transportationType) as real, days);
    ProductNonNegative(days, req.travelers as real);
    ProductNonNegative(FoodDailyRate(req.diningPreference) as real, PersonDays(req));
    ProductNonNegative(req.activitiesBudget, PersonDays(req));
    ProductNonNegative(500.0, req.travelers as real);
  }

  /** Every part of a breakdown, the surcharge included, lies between 0 and
      the total. */
  predicate PartsWithinTotal(b: BudgetBreakdown) {
    && 0.0 <= b.accommodation <= b.total
    && 0.0 <= b.localTransportation <= b.total
    && 0.0 <= b.food <= b.total
    && 0.0 <= b.activities <= b.total
    && 0.0 <= b.flights <= b.total
    && 0.0 <= b.miscellaneous <= b.total
  }

  lemma AssembledPartsBounded(destination: string, a: real, t: real, f: real, act: real, fl: real, n: real)
    requires n != 0.0
    requires a >= 0.0 && t >= 0.0 && f >= 0.0 && act >= 0.0 && fl >= 0.0
    ensures PartsWithinTotal(Assemble(destination, a, t, f, act, fl, n))
  {
  }

  /** With non-negative inputs every component is non-negative and none
      exceeds the total. */
  lemma TotalBoundsComponents(req: BudgetRequest)
    requires req.durationDays > 0 && req.travelers > 0 && req.activitiesBudget >= 0.0
    requires req.flightCost.Some? ==> req.flightCost.value >= 0.0
    ensures CalculateBudget(req).Ok? && PartsWithinTotal(CalculateBudget(req).value)
  {
    ComponentsNonNegative(req);
    AssembledPartsBounded(req.destination, AccommodationCost(req), TransportationCost(req), FoodCost(req),
                          ActivitiesCost(req), FlightTotal(req), PersonDays(req));
  }
}
