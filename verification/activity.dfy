/** The activity agent's dependency bundle and its two tools from
    agents/activity.py: the underrated-location table
    (`find_underrated_locations`) and the keyword classifier applied to the
    vision model's answer in `analyze_location_image`. */
module Activity {
  import opened Wrappers
  import opened Text

  /** `ActivityDeps`; `travelers` defaults to 1, `preferOutdoor` to false and
      `preferUnderrated` to true. */
  datatype ActivityDeps = ActivityDeps(
    location: string,
    startDate: string,
    endDate: string,
    travelers: int,
    interests: seq<string>,
    maxBudget: Option<real>,
    preferOutdoor: bool,
    preferUnderrated: bool)

  /** One entry of the underrated-location table. */
  datatype Spot = Spot(
    name: string, description: string, category: string, estimatedCost: int, crowdedness: string)

  const ParisSpots: seq<Spot> := [
    Spot("Canal Saint-Martin", "A picturesque canal with trendy boutiques and cafes",
      "neighborhood", 0, "low"),
    // The name is kept exactly as the source file spells it.
    Spot("Mus\U{C3}\U{A9}e de la Vie Romantique", "A charming museum in a historic house with beautiful gardens",
      "museum", 8, "very low")
  ]

  const NewYorkSpots: seq<Spot> := [
    Spot("Greenacre Park", "A hidden pocket park with a waterfall", "outdoor", 0, "low"),
    Spot("City Island", "A small seaside community in the Bronx with great seafood",
      "neighborhood", 20, "moderate")
  ]

  const GenericSpots: seq<Spot> := [
    Spot("Local Parks", "Check out smaller local parks for a more authentic experience",
      "outdoor", 0, "low"),
    Spot("Neighborhood Cafes", "Visit cafes in residential areas away from tourist centers",
      "food", 10, "low")
  ]

  /** The table in dictionary order: "paris" is tried before "new york". */
  const UnderratedTable: seq<Rule<seq<Spot>>> := [
    Rule(["paris"], ParisSpots),
    Rule(["new york"], NewYorkSpots)
  ]

  /** `find_underrated_locations`: the spots of the first city key occurring
      in the lower-cased location, else the generic suggestions. The lookup
      is first-match in table order ("paris" wins over "new york"), and every
      answer holds two spots with non-negative cost. */
  function FindUnderratedLocations(location: string): (r: seq<Spot>)
    ensures var text := Lower(location);
      && (Contains(text, "paris") ==> r == ParisSpots)
      && (!Contains(text, "paris") && Contains(text, "new york") ==> r == NewYorkSpots)
      && (!Contains(text, "paris") && !Contains(text, "new york") ==> r == GenericSpots)
    ensures |r| == 2 && forall i :: 0 <= i < |r| ==> r[i].estimatedCost >= 0
  {
    var text := Lower(location);
    FirstHitIsFirstFiring(UnderratedTable, text);
    assert UnderratedTable[0].keywords[0] == "paris";
    assert UnderratedTable[1].keywords[0] == "new york";
    assert Contains(text, "paris") ==> FirstFiringAt(UnderratedTable, text, 0);
    assert !Contains(text, "paris") && Contains(text, "new york") ==> FirstFiringAt(UnderratedTable, text, 1);
    FirstHit(UnderratedTable, text).GetOr(GenericSpots)
  }

  /** The answer of the vision service: an HTTP status with the message text,
      or an exception (transport failure or a malformed body). */
  datatype Reply = Response(status: int, analysisText: string) | Raised(message: string)

  datatype AnalysisError = HttpFailure(status: int) | ExceptionRaised(message: string)

  /** The dictionary `analyze_location_image` returns: `rawAnalysis` is present
      on success only, `error` on failure only. */
  datatype ImageAnalysis = ImageAnalysis(
    locationType: string,
    crowdedness: string,
    possibleActivities: seq<string>,
    isUnderrated: bool,
    rawAnalysis: Option<string>,
    error: Option<AnalysisError>)

  const LocationRules: seq<Rule<string>> := [
    Rule(["beach", "coast"], "beach"),
    Rule(["mountain", "hill"], "mountain"),
    Rule(["city", "urban"], "urban"),
    Rule(["park", "garden"], "park")
  ]

  const CrowdednessRules: seq<Rule<string>> := [
    Rule(["empty", "deserted", "quiet", "peaceful"], "very low"),
    Rule(["few people", "not crowded", "sparse"], "low"),
    Rule(["some people", "moderate"], "moderate"),
    Rule(["crowded", "busy", "popular"], "high"),
    Rule(["very crowded", "packed", "bustling"], "very high")
  ]

  const ActivityRules: seq<Rule<string>> := [
    Rule(["hike", "hiking", "trail"], "hiking"),
    Rule(["swim", "swimming", "beach", "water"], "swimming"),
    Rule(["sightseeing", "view", "scenic"], "sightseeing"),
    Rule(["photo", "photography", "picture"], "photography"),
    Rule(["relax", "relaxing", "peaceful"], "relaxing"),
    Rule(["eat", "dining", "food", "restaurant"], "dining"),
    Rule(["shop", "shopping", "market"], "shopping"),
    Rule(["museum", "cultural", "history", "historic"], "cultural")
  ]

  const ActivityCategories: seq<string> :=
    ["hiking", "swimming", "sightseeing", "photography", "relaxing", "dining", "shopping", "cultural"]

  /** The `if`/`elif` chain on the kind of place, defaulting to "unknown". */
  function LocationType(text: string): string {
    FirstHit(LocationRules, text).GetOr("unknown")
  }

  /** The kind of place follows the precedence beach > mountain > urban > park
      > "unknown". */
  lemma LocationTypePrecedence(text: string)
    ensures var r := LocationType(text);
      var beach := AnyContains(text, ["beach", "coast"]);
      var mountain := AnyContains(text, ["mountain", "hill"]);
      var city := AnyContains(text, ["city", "urban"]);
      var park := AnyContains(text, ["park", "garden"]);
      && (beach ==> r == "beach")
      && (!beach && mountain ==> r == "mountain")
      && (!beach && !mountain && city ==> r == "urban")
      && (!beach && !mountain && !city && park ==> r == "park")
      && (!beach && !mountain && !city && !park ==> r == "unknown")
  {
    FirstHitIsFirstFiring(LocationRules, text);
    if Fires(LocationRules[0], text) {
      assert FirstFiringAt(LocationRules, text, 0);
    } else if Fires(LocationRules[1], text) {
      assert FirstFiringAt(LocationRules, text, 1);
    } else if Fires(LocationRules[2], text) {
      assert FirstFiringAt(LocationRules, text, 2);
    } else if Fires(LocationRules[3], text) {
      assert FirstFiringAt(LocationRules, text, 3);
    }
  }

  /** The `if`/`elif` chain on crowding, defaulting to "unknown". */
  function Crowdedness(text: string): string {
    FirstHit(CrowdednessRules, text).GetOr("unknown")
  }

  /** Crowding follows the precedence very low > low > moderate > high >
      very high > "unknown"; "very high" needs one of its words and none of
      the "high" words. */
  lemma CrowdednessPrecedence(text: string)
    ensures var r := Crowdedness(text);
      var veryLow := AnyContains(text, ["empty", "deserted", "quiet", "peaceful"]);
      var low := AnyContains(text, ["few people", "not crowded", "sparse"]);
      var moderate := AnyContains(text, ["some people", "moderate"]);
      var high := AnyContains(text, ["crowded", "busy", "popular"]);
      var veryHigh := AnyContains(text, ["very crowded", "packed", "bustling"]);
      && (veryLow ==> r == "very low")
      && (!veryLow && low ==> r == "low")
      && (!veryLow && !low && moderate ==> r == "moderate")
      && (!veryLow && !low && !moderate && high ==> r == "high")
      && (!veryLow && !low && !moderate && !high && veryHigh ==> r == "very high")
      && (!veryLow && !low && !moderate && !high && !veryHigh ==> r == "unknown")
  {
    FirstHitIsFirstFiring(CrowdednessRules, text);
    if Fires(CrowdednessRules[0], text) {
      assert FirstFiringAt(CrowdednessRules, text, 0);
    } else if Fires(CrowdednessRules[1], text) {
      assert FirstFiringAt(CrowdednessRules, text, 1);
    } else if Fires(CrowdednessRules[2], text) {
      assert FirstFiringAt(CrowdednessRules, text, 2);
    } else if Fires(CrowdednessRules[3], text) {
      assert FirstFiringAt(CrowdednessRules, text, 3);
    } else if Fires(CrowdednessRules[4], text) {
      assert FirstFiringAt(CrowdednessRules, text, 4);
    }
  }

  /** "not crowded" reads as low crowding unless a very-low word occurs, even
      though it contains "crowded". */
  lemma NotCrowdedIsLow(text: string)
    requires Contains(text, "not crowded")
    requires !AnyContains(text, ["empty", "deserted", "quiet", "peaceful"])
    ensures Crowdedness(text) == "low"
  {
    CrowdednessPrecedence(text);
    assert ["few people", "not crowded", "sparse"][1] == "not crowded";
  }

  /** The "very high" branch is shadowed: a text containing "very crowded"
      also contains "crowded", so it never reads as "very high". */
  lemma VeryCrowdedNeverVeryHigh(text: string)
    requires Contains(text, "very crowded")
    ensures Crowdedness(text) != "very high"
  {
    assert OccursAt("very crowded", "crowded", 5);
    ContainsIffOccurs("very crowded", "crowded");
    ContainsTransitive(text, "very crowded", "crowded");
    assert ["crowded", "busy", "popular"][0] == "crowded";
    CrowdednessPrecedence(text);
  }

  /** The loop over the activity table: every category with a keyword hit,
      in table order. */
  function PossibleActivities(text: string): seq<string> {
    AllHits(ActivityRules, text)
  }

  lemma ActivityCategoriesDistinct()
    ensures ValuesOf(ActivityRules) == ActivityCategories
    ensures Distinct(ActivityCategories)
  {
    assert forall i :: 0 <= i < 8 ==> ActivityCategories[i][..2] == ["hi", "sw", "si", "ph", "re", "di", "sh", "cu"][i];
  }

  /** The activity list holds exactly the categories whose keywords occur,
      in table order (hiking first, cultural last), each at most once. */
  lemma PossibleActivitiesExact(text: string)
    ensures var r := PossibleActivities(text);
      && IsSubsequence(r, ActivityCategories)
      && Distinct(r)
      && forall i :: 0 <= i < |ActivityRules| ==> (ActivityCategories[i] in r <==> Fires(ActivityRules[i], text))
  {
    var r := PossibleActivities(text);
    ActivityCategoriesDistinct();
    SubsequenceOfDistinct(r, ActivityCategories);
    forall i | 0 <= i < |ActivityRules| && ActivityCategories[i] in r
      ensures Fires(ActivityRules[i], text)
    {
      var j :| 0 <= j < |ActivityRules| && ActivityRules[j].value == ActivityCategories[i] && Fires(ActivityRules[j], text);
      assert ActivityCategories[j] == ActivityCategories[i];
    }
  }

  /** `"underrated" in text or "hidden gem" in text`. */
  function MentionsUnderrated(text: string): bool {
    Contains(text, "underrated") || Contains(text, "hidden gem")
  }

  /** The result for a failed call: nothing is known about the place. */
  function UnknownAnalysis(error: AnalysisError): ImageAnalysis {
    ImageAnalysis("unknown", "unknown", [], false, None, Some(error))
  }

  /** The classification part of `analyze_location_image`: a 200 answer is
      classified on its lower-cased text, any other status or an exception
      yields the all-unknown result carrying the error. */
  function AnalyzeLocationImage(reply: Reply): (r: ImageAnalysis)
    ensures r.error.None? <==> reply.Response? && reply.status == 200
    ensures r.rawAnalysis.Some? <==> r.error.None?
    ensures r.error.Some? ==>
      r.locationType == "unknown" && r.crowdedness == "unknown" && r.possibleActivities == [] && !r.isUnderrated
    ensures reply.Response? && reply.status != 200 ==> r.error == Some(HttpFailure(reply.status))
    ensures reply.Raised? ==> r.error == Some(ExceptionRaised(reply.message))
    ensures r.error.None? ==>
      var text := Lower(reply.analysisText);
      && r.rawAnalysis == Some(reply.analysisText)
      && r.locationType == LocationType(text)
      && r.crowdedness == Crowdedness(text)
      && r.possibleActivities == PossibleActivities(text)
      && (r.isUnderrated <==> Contains(text, "underrated") || Contains(text, "hidden gem"))
  {
    match reply
    case Response(status, analysisText) =>
      if status == 200 then
        var text := Lower(analysisText);
        ImageAnalysis(
          LocationType(text), Crowdedness(text), PossibleActivities(text),
          MentionsUnderrated(text), Some(analysisText), None)
      else
        UnknownAnalysis(HttpFailure(status))
    case Raised(message) =>
      UnknownAnalysis(ExceptionRaised(message))
  }
}
