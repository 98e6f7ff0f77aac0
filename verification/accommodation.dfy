/** The accommodation agent's dependency bundle and its keyword-based
    location scorer (`estimate_location_quality` in agents/accommodation.py). */
module Accommodation {
  import opened Wrappers
  import opened Text

  /** `AccommodationDeps`; `guests` and `rooms` default to 1, `maxBudget`
      and `amenities` to `None`. */
  datatype AccommodationDeps = AccommodationDeps(
    location: string,
    checkInDate: string,
    checkOutDate: string,
    guests: int,
    rooms: int,
    preference: string,
    maxBudget: Option<real>,
    amenities: Option<seq<string>>)

  /** The dictionary `estimate_location_quality` returns. */
  datatype LocationQuality = LocationQuality(
    touristDensity: real, convenience: real, safety: real, underrated: bool)

  const TouristKeywords: seq<string> := ["tourist", "popular", "crowded", "famous", "busy"]
  const ConvenienceKeywords: seq<string> := ["central", "downtown", "close to", "nearby", "walking distance"]
  const SafetyKeywords: seq<string> := ["safe", "secure", "quiet", "residential", "peaceful"]
  const UnderratedKeywords: seq<string> :=
    ["hidden gem", "off the beaten path", "local favorite", "underrated", "undiscovered"]

  /** No keyword is listed twice in any of the three scoring lists. */
  lemma ScoringKeywordsDistinct()
    ensures Distinct(TouristKeywords) && Distinct(ConvenienceKeywords) && Distinct(SafetyKeywords)
  {
    assert forall i :: 0 <= i < 5 ==> TouristKeywords[i][0] == "tpcfb"[i];
    assert forall i :: 0 <= i < 5 ==> ConvenienceKeywords[i][..2] == ["ce", "do", "cl", "ne", "wa"][i];
    assert forall i :: 0 <= i < 5 ==> SafetyKeywords[i][..2] == ["sa", "se", "qu", "re", "pe"][i];
  }

  function Min(a: real, b: real): real {
    if a <= b then a else b
  }

  /** `min(count / len(keywords), 1.0)`. */
  function Score(keywords: seq<string>, text: string): real
    requires |keywords| > 0
  {
    Min(CountContained(keywords, text) as real / |keywords| as real, 1.0)
  }

  /** With five distinct keywords the cap never binds: the score is the
      number of keywords present, over five. */
  lemma ScoreIsFractionPresent(keywords: seq<string>, text: string)
    requires |keywords| == 5 && Distinct(keywords)
    ensures Score(keywords, text) == |Present(keywords, text)| as real / 5.0
    ensures |Present(keywords, text)| <= 5
  {
    CountIsPresentKeywords(keywords, text);
  }

  /** A score in the sense of the scorer: `k / 5` for some `k` in 0..5. */
  ghost predicate IsFifth(x: real) {
    exists k: nat :: k <= 5 && x == Fifths(k)
  }

  function Fifths(k: nat): real {
    k as real / 5.0
  }

  /** `estimate_location_quality`: each score is the fraction of its five
      keywords that occur in the lower-cased description (each keyword
      counted once however often it occurs); `underrated` says whether any
      underrated phrase occurs. */
  function EstimateLocationQuality(description: string): (q: LocationQuality)
    ensures q.touristDensity == |Present(TouristKeywords, Lower(description))| as real / 5.0
    ensures q.convenience == |Present(ConvenienceKeywords, Lower(description))| as real / 5.0
    ensures q.safety == |Present(SafetyKeywords, Lower(description))| as real / 5.0
    ensures q.underrated <==> exists k :: k in UnderratedKeywords && Contains(Lower(description), k)
  {
    var text := Lower(description);
    ScoringKeywordsDistinct();
    ScoreIsFractionPresent(TouristKeywords, text);
    ScoreIsFractionPresent(ConvenienceKeywords, text);
    ScoreIsFractionPresent(SafetyKeywords, text);
    AnyContainsIffSomeKeyword(text, UnderratedKeywords);
    LocationQuality(
      Score(TouristKeywords, text),
      Score(ConvenienceKeywords, text),
      Score(SafetyKeywords, text),
      AnyContains(text, UnderratedKeywords))
  }

  /** All three scores are fifths between 0 and 1, so the `min(..., 1.0)`
      cap never changes a score. */
  lemma ScoresAreFifths(description: string)
    ensures var q := EstimateLocationQuality(description);
      && IsFifth(q.touristDensity) && IsFifth(q.convenience) && IsFifth(q.safety)
      && 0.0 <= q.touristDensity <= 1.0 && 0.0 <= q.convenience <= 1.0 && 0.0 <= q.safety <= 1.0
  {
    var text := Lower(description);
    ScoringKeywordsDistinct();
    ScoreIsFractionPresent(TouristKeywords, text);
    ScoreIsFractionPresent(ConvenienceKeywords, text);
    ScoreIsFractionPresent(SafetyKeywords, text);
    var q := EstimateLocationQuality(description);
    assert q.touristDensity == Fifths(|Present(TouristKeywords, text)|);
    assert q.convenience == Fifths(|Present(ConvenienceKeywords, text)|);
    assert q.safety == Fifths(|Present(SafetyKeywords, text)|);
  }

  /** Only the lower-cased description matters. */
  lemma QualityDependsOnLoweredText(a: string, b: string)
    requires Lower(a) == Lower(b)
    ensures EstimateLocationQuality(a) == EstimateLocationQuality(b)
  {
  }

  /** No keyword of a list of non-empty keywords occurs in the empty string. */
  lemma NoKeywordInEmpty(keywords: seq<string>)
    requires forall i :: 0 <= i < |keywords| ==> |keywords[i]| > 0
    ensures Present(keywords, "") == {}
    ensures !AnyContains("", keywords)
  {
    forall i | 0 <= i < |keywords| ensures !Contains("", keywords[i]) {
      NothingInEmpty(keywords[i]);
    }
  }

  /** An empty description scores zero everywhere and is not underrated. */
  lemma EmptyDescriptionScoresZero()
    ensures EstimateLocationQuality("") == LocationQuality(0.0, 0.0, 0.0, false)
  {
    assert Lower("") == "";
    NoKeywordInEmpty(TouristKeywords);
    NoKeywordInEmpty(ConvenienceKeywords);
    NoKeywordInEmpty(SafetyKeywords);
    NoKeywordInEmpty(UnderratedKeywords);
    AnyContainsIffSomeKeyword("", UnderratedKeywords);
  }
}
