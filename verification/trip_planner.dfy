/** The coordinator's three agent-calling tools from agents/trip_planner.py
    (`search_flights`, `search_accommodations`, `plan_activities`). Each builds
    a child agent's dependency bundle from the coordinator's trip parameters
    and a fixed share of its budget, runs the child with the coordinator's own
    usage ledger, and returns the child's output as it is.

    The child agents themselves (a language-model loop) are opaque: a run is a
    function parameter from the call to its output, and the ledger is a value
    of an uninterpreted type `L` that is only passed along. */
module TripPlanner {
  import opened Wrappers
  import opened FlightSearch
  import opened Accommodation
  import opened Activity

  /** `TripPlannerDeps`: the parameters of one planning session. */
  datatype TripPlannerDeps = TripPlannerDeps(
    origin: string,
    destination: string,
    startDate: string,
    endDate: string,
    travelers: int,
    budget: real,
    interests: seq<string>,
    accommodationPreference: string,
    transportationPreference: string,
    diningPreference: string)

  /** The coordinator's domain failure, one of its two output shapes. */
  datatype TripPlanningFailed = TripPlanningFailed(reason: string, suggestions: seq<string>)

  /** What a tool sees of the run: the coordinator's parameters and ledger. */
  datatype RunContext<L> = RunContext(deps: TripPlannerDeps, usage: L)

  /** One `agent.run(prompt, deps=deps, usage=usage)` call. */
  datatype AgentCall<D, L> = AgentCall(prompt: string, deps: D, usage: L)

  /** The fixed split of the trip budget: 40% flights, 30% accommodation,
      20% activities. */
  function FlightShare(budget: real): real { budget * 0.4 }
  function AccommodationShare(budget: real): real { budget * 0.3 }
  function ActivityShare(budget: real): real { budget * 0.2 }

  /** The three shares add up to 90% of the budget, so for a non-negative
      budget none of them, nor their sum, exceeds it. */
  lemma SharesWithinBudget(budget: real)
    ensures FlightShare(budget) + AccommodationShare(budget) + ActivityShare(budget) == budget * 0.9
    ensures budget >= 0.0 ==>
      && 0.0 <= ActivityShare(budget) <= AccommodationShare(budget) <= FlightShare(budget)
      && FlightShare(budget) + AccommodationShare(budget) + ActivityShare(budget) <= budget
  {
  }

  /** The call `search_flights` makes, field by field. */
  ghost predicate IsFlightCallFor<L>(c: AgentCall<FlightSearchDeps, L>, ctx: RunContext<L>) {
    var p := ctx.deps;
    && c.usage == ctx.usage
    && c.prompt == "Find the best flights from " + p.origin + " to " + p.destination
    && c.deps.origin == p.origin
    && c.deps.destination == p.destination
    && c.deps.departureDate == p.startDate
    && c.deps.returnDate == Some(p.endDate)
    && c.deps.travelers == p.travelers
    && c.deps.maxBudget == Some(p.budget * 0.4)
    && c.deps.preferredAirlines == None
  }

  /** The call `search_accommodations` makes, field by field. */
  ghost predicate IsAccommodationCallFor<L>(c: AgentCall<AccommodationDeps, L>, ctx: RunContext<L>) {
    var p := ctx.deps;
    && c.usage == ctx.usage
    && c.prompt == "Find the best accommodation in " + p.destination
    && c.deps.location == p.destination
    && c.deps.checkInDate == p.startDate
    && c.deps.checkOutDate == p.endDate
    && c.deps.guests == p.travelers
    && c.deps.rooms == 1
    && c.deps.preference == p.accommodationPreference
    && c.deps.maxBudget == Some(p.budget * 0.3)
    && c.deps.amenities == None
  }

  /** The call `plan_activities` makes, field by field. */
  ghost predicate IsActivityCallFor<L>(c: AgentCall<ActivityDeps, L>, ctx: RunContext<L>) {
    var p := ctx.deps;
    && c.usage == ctx.usage
    && c.prompt == "Plan activities in " + p.destination
    && c.deps.location == p.destination
    && c.deps.startDate == p.startDate
    && c.deps.endDate == p.endDate
    && c.deps.travelers == p.travelers
    && c.deps.interests == p.interests
    && c.deps.maxBudget == Some(p.budget * 0.2)
    && !c.deps.preferOutdoor
    && c.deps.preferUnderrated
  }

  function FlightCall<L>(ctx: RunContext<L>): AgentCall<FlightSearchDeps, L> {
    var p := ctx.deps;
    var deps := FlightSearchDeps(
      p.origin, p.destination, p.startDate, Some(p.endDate), p.travelers,
      Some(FlightShare(p.budget)), None);
    AgentCall("Find the best flights from " + deps.origin + " to " + deps.destination, deps, ctx.usage)
  }

  function AccommodationCall<L>(ctx: RunContext<L>): AgentCall<AccommodationDeps, L> {
    var p := ctx.deps;
    var deps := AccommodationDeps(
      p.destination, p.startDate, p.endDate, p.travelers, 1, p.accommodationPreference,
      Some(AccommodationShare(p.budget)), None);
    AgentCall("Find the best accommodation in " + deps.location, deps, ctx.usage)
  }

  function ActivityCall<L>(ctx: RunContext<L>): AgentCall<ActivityDeps, L> {
    var p := ctx.deps;
    var deps := ActivityDeps(
      p.destination, p.startDate, p.endDate, p.travelers, p.interests,
      Some(ActivityShare(p.budget)), false, true);
    AgentCall("Plan activities in " + deps.location, deps, ctx.usage)
  }

  /** `search_flights`: the flight agent's output for the flight call. */
  function SearchFlights<L(!new), R>(ctx: RunContext<L>, run: AgentCall<FlightSearchDeps, L> -> R): (r: R)
    ensures exists c :: IsFlightCallFor(c, ctx) && r == run(c)
  {
    var c := FlightCall(ctx);
    assert IsFlightCallFor(c, ctx);
    run(c)
  }

  /** `search_accommodations`: the accommodation agent's output for the
      accommodation call. */
  function SearchAccommodations<L(!new), R>(ctx: RunContext<L>, run: AgentCall<AccommodationDeps, L> -> R): (r: R)
    ensures exists c :: IsAccommodationCallFor(c, ctx) && r == run(c)
  {
    var c := AccommodationCall(ctx);
    assert IsAccommodationCallFor(c, ctx);
    run(c)
  }

  /** `plan_activities`: the activity agent's output for the activity call. */
  function PlanActivities<L(!new), R>(ctx: RunContext<L>, run: AgentCall<ActivityDeps, L> -> R): (r: R)
    ensures exists c :: IsActivityCallFor(c, ctx) && r == run(c)
  {
    var c := ActivityCall(ctx);
    assert IsActivityCallFor(c, ctx);
    run(c)
  }

  /** The three calls are exactly the ones described field by field, and all
      three carry the coordinator's ledger. */
  lemma CallsMatchDescription<L>(ctx: RunContext<L>)
    ensures IsFlightCallFor(FlightCall(ctx), ctx)
    ensures IsAccommodationCallFor(AccommodationCall(ctx), ctx)
    ensures IsActivityCallFor(ActivityCall(ctx), ctx)
    ensures FlightCall(ctx).usage == AccommodationCall(ctx).usage == ActivityCall(ctx).usage == ctx.usage
  {
  }

  /** The transportation and dining preferences reach no child agent. */
  lemma TransportAndDiningNotForwarded<L>(ctx: RunContext<L>, transportation: string, dining: string)
    ensures var other := ctx.(deps := ctx.deps.(transportationPreference := transportation,
                                                diningPreference := dining));
      && FlightCall(other) == FlightCall(ctx)
      && AccommodationCall(other) == AccommodationCall(ctx)
      && ActivityCall(other) == ActivityCall(ctx)
  {
  }
}
