/** The budget optimiser agent's dependency bundle and its savings table
    (`find_budget_alternatives` in agents/budget.py). */
module BudgetAgent {

  datatype BudgetDeps = BudgetDeps(
    destination: string,
    durationDays: int,
    travelers: int,
    totalBudget: real,
    accommodationPreference: string,
    transportationPreference: string,
    diningPreference: string)

  /** One suggestion: the dictionary with keys option, savings and tip. */
  datatype Alternative = Alternative(option: string, savings: string, tip: string)

  const LuxuryAlternatives: seq<Alternative> := [
    Alternative("Boutique hotels", "20-30%",
      "Smaller luxury boutique hotels often offer similar quality at lower prices"),
    Alternative("Luxury apartment rental", "30-40%",
      "High-end apartment rentals often have more space at a fraction of luxury hotel costs")
  ]

  const MidRangeAlternatives: seq<Alternative> := [
    Alternative("Guesthouses", "20-30%",
      "Local guesthouses offer authentic experiences at lower prices than chain hotels"),
    Alternative("B&Bs", "15-25%",
      "Bed and breakfasts include meals and often provide more personalized service")
  ]

  const GeneralAlternatives: seq<Alternative> := [
    Alternative("Research free activities", "100%",
      "Many destinations have free walking tours, museum days, and cultural events"),
    Alternative("Travel in shoulder season", "20-40%",
      "Prices are lower just before or after peak season, but weather is often still good")
  ]

  /** The nested table category -> preference -> suggestions. */
  const AlternativesTable: map<string, map<string, seq<Alternative>>> :=
    map["accommodation" := map["luxury" := LuxuryAlternatives, "mid-range" := MidRangeAlternatives]]

  /** `find_budget_alternatives`: exact, case-sensitive nested lookup. Only
      ("accommodation", "luxury") and ("accommodation", "mid-range") have
      their own suggestions; every other pair, including ("accommodation",
      "budget") and any other category, gets the general ones. Each answer
      holds two suggestions. */
  function FindBudgetAlternatives(category: string, preference: string): (r: seq<Alternative>)
    ensures category == "accommodation" && preference == "luxury" ==> r == LuxuryAlternatives
    ensures category == "accommodation" && preference == "mid-range" ==> r == MidRangeAlternatives
    ensures !(category == "accommodation" && preference in {"luxury", "mid-range"}) ==> r == GeneralAlternatives
    ensures |r| == 2
  {
    assert AlternativesTable.Keys == {"accommodation"};
    assert AlternativesTable["accommodation"].Keys == {"luxury", "mid-range"};
    if category in AlternativesTable && preference in AlternativesTable[category]
    then AlternativesTable[category][preference]
    else GeneralAlternatives
  }

  /** Matching is case-sensitive: "Luxury" is not "luxury". */
  lemma CapitalisedPreferenceFallsBack()
    ensures FindBudgetAlternatives("accommodation", "Luxury") == GeneralAlternatives
  {
    assert "Luxury"[0] != "luxury"[0];
    assert "Luxury" != "mid-range";
  }
}
