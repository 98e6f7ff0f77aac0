/** The mock page scraper exposed to every agent as a tool (`scrape_website`
    in tools/scrape.py): a URL containing "flights" (case-sensitive) gets two
    canned flights, any other URL generic content. */
module ScrapeTool {
  import opened Wrappers
  import opened Text

  datatype ScrapeRequest = ScrapeRequest(url: string, elementsToExtract: Option<map<string, string>>)

  /** One entry of the `"flights"` list in `extracted_data`. */
  datatype ScrapedFlight = ScrapedFlight(
    airline: string, flightNumber: string, departure: string, arrival: string, price: real)

  /** `extracted_data` is either absent or holds the `"flights"` list. */
  datatype ScrapeResult = ScrapeResult(
    content: string,
    extractedFlights: Option<seq<ScrapedFlight>>,
    success: bool,
    errorMessage: Option<string>)

  const SampleFlights: seq<ScrapedFlight> := [
    ScrapedFlight("Example Airlines", "EA123", "10:00 AM", "1:30 PM", 299.99),
    ScrapedFlight("Budget Air", "BA456", "2:15 PM", "5:45 PM", 249.99)
  ]

  /** `scrape_website`: never fails; only the case-sensitive substring
      "flights" of the URL matters, not `elements_to_extract`. */
  function ScrapeWebsite(req: ScrapeRequest): (r: ScrapeResult)
    ensures r.success && r.errorMessage == None
    ensures r.extractedFlights.Some? <==> Contains(req.url, "flights")
    ensures Contains(req.url, "flights") ==>
      && r.content == "Flight information scraped from the website"
      && |r.extractedFlights.value| == 2
      && r.extractedFlights.value[0].flightNumber == "EA123"
      && r.extractedFlights.value[0].price == 299.99
      && r.extractedFlights.value[1].flightNumber == "BA456"
      && r.extractedFlights.value[1].price == 249.99
    ensures !Contains(req.url, "flights") ==> r.content == "Generic content scraped from the website"
  {
    if Contains(req.url, "flights") then
      ScrapeResult("Flight information scraped from the website", Some(SampleFlights), true, None)
    else
      ScrapeResult("Generic content scraped from the website", None, true, None)
  }

  /** The extraction hints never change the answer. */
  lemma ScrapeIgnoresElements(req: ScrapeRequest, elements: Option<map<string, string>>)
    ensures ScrapeWebsite(req) == ScrapeWebsite(req.(elementsToExtract := elements))
  {
  }

  /** The URL is not lower-cased: upper-case "FLIGHTS" takes the generic branch. */
  lemma UpperCaseFlightsIsGeneric()
    ensures ScrapeWebsite(ScrapeRequest("https://example.com/FLIGHTS", None)).extractedFlights == None
  {
    var url := "https://example.com/FLIGHTS";
    assert 'f' !in url;
    if Contains(url, "flights") {
      ContainsFirstChar(url, "flights");
    }
  }
}
