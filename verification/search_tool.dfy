/** The mock web search exposed to every agent as a tool (`search_web` in
    tools/search.py): the lower-cased query selects one of three canned
    result lists. */
module SearchTool {
  import opened Wrappers
  import opened Text

  datatype SearchQuery = SearchQuery(query: string, numResults: int)

  datatype SearchResult = SearchResult(title: string, snippet: string, url: Option<string>)

  const FlightResults: seq<SearchResult> := [
    SearchResult("Cheap Flights to Popular Destinations",
      "Find the best deals on flights to popular destinations.",
      Some("https://example.com/flights")),
    SearchResult("Last Minute Flight Deals",
      "Save on last-minute flights. Book now for the best prices.",
      Some("https://example.com/last-minute-flights"))
  ]

  const AccommodationResults: seq<SearchResult> := [
    SearchResult("Top-rated Hotels and Accommodations",
      "Discover the best places to stay at your destination.",
      Some("https://example.com/hotels")),
    SearchResult("Budget Accommodations Guide",
      "Find affordable places to stay without compromising on quality.",
      Some("https://example.com/budget-accommodations"))
  ]

  const GuideResults: seq<SearchResult> := [
    SearchResult("Travel Guide",
      "Comprehensive travel guide with tips and recommendations.",
      Some("https://example.com/travel-guide"))
  ]

  /** `search_web`: "flight" anywhere in the lower-cased query wins over
      "accommodation"; anything else gets the travel guide. The requested
      number of results is ignored. */
  function SearchWeb(q: SearchQuery): (r: seq<SearchResult>)
    ensures Contains(Lower(q.query), "flight") ==> r == FlightResults
    ensures !Contains(Lower(q.query), "flight") && Contains(Lower(q.query), "accommodation")
            ==> r == AccommodationResults
    ensures !Contains(Lower(q.query), "flight") && !Contains(Lower(q.query), "accommodation")
            ==> r == GuideResults
    ensures 1 <= |r| <= 2
  {
    var text := Lower(q.query);
    if Contains(text, "flight") then FlightResults
    else if Contains(text, "accommodation") then AccommodationResults
    else GuideResults
  }

  /** The search is case-insensitive: any capitalisation of "flight" in the
      query selects the flight results, even next to "accommodation". */
  lemma AnyCaseFlightWins(q: SearchQuery, word: string)
    requires Contains(q.query, word) && Lower(word) == "flight"
    ensures SearchWeb(q) == FlightResults
  {
    LowerKeepsContains(q.query, word);
  }

  /** Likewise any capitalisation of "accommodation", when no "flight" is present. */
  lemma AnyCaseAccommodation(q: SearchQuery, word: string)
    requires Contains(q.query, word) && Lower(word) == "accommodation"
    requires !Contains(Lower(q.query), "flight")
    ensures SearchWeb(q) == AccommodationResults
  {
    LowerKeepsContains(q.query, word);
  }

  /** The answer depends on the lower-cased query only, never on `num_results`. */
  lemma SearchDependsOnLoweredQueryOnly(q1: SearchQuery, q2: SearchQuery)
    requires Lower(q1.query) == Lower(q2.query)
    ensures SearchWeb(q1) == SearchWeb(q2)
  {
  }
}
