/** Country-code normalisation and the countries for which a state/province code is sent. */
module Country {
  import opened Text

  /** The fixed lookup, keyed on the lower-cased country text. */
  const COUNTRY_LOOKUP: map<string, string> := map["usa" := "US", "united states" := "US"]

  /** The countries whose parties get a `StateProvinceCode`. */
  const STATE_COUNTRIES: set<string> := {"US", "CA", "IE"}

  /** "usa" or "united states" in any mixture of letter case. */
  predicate NamesUnitedStates(country: string)
  {
    SpelledInAnyCase(country, "usa") || SpelledInAnyCase(country, "united states")
  }

  /**
   * `country_lookup.get(country.lower(), country)`: the two spellings of the
   * United States, in any case, become "US"; every other text comes back as given.
   */
  function NormalizeCountryCode(country: string): (code: string)
    ensures NamesUnitedStates(country) ==> code == "US"
    ensures !NamesUnitedStates(country) ==> code == country
  {
    LowerEqualsIff(country, "usa");
    LowerEqualsIff(country, "united states");
    var key := Lower(country);
    if key in COUNTRY_LOOKUP then COUNTRY_LOOKUP[key] else country
  }

  predicate StateApplies(code: string)
  {
    code in STATE_COUNTRIES
  }

  /** Normalising twice gives what normalising once gives. */
  lemma NormalizeIdempotent(country: string)
    ensures NormalizeCountryCode(NormalizeCountryCode(country)) == NormalizeCountryCode(country)
  {
    if NamesUnitedStates(country) {
      assert !SpelledInAnyCase("US", "usa");
      assert !SpelledInAnyCase("US", "united states");
    }
  }

  /** The result is "US" exactly for "US" itself and the two spellings in any case. */
  lemma NormalizesToUS(country: string)
    ensures NormalizeCountryCode(country) == "US" <==> country == "US" || NamesUnitedStates(country)
  {
  }

  /**
   * A state is sent for "US", "CA", "IE" and the United States spellings;
   * not for lower-case codes or other names of Canada and Ireland.
   */
  lemma StateAppliesAfterNormalizing(country: string)
    ensures StateApplies(NormalizeCountryCode(country)) <==> country in STATE_COUNTRIES || NamesUnitedStates(country)
  {
  }

  /** Texts outside the lookup come back exactly as given, whatever their case. */
  lemma OtherCountriesUnchanged()
    ensures NormalizeCountryCode("brazil") == "brazil"
    ensures NormalizeCountryCode("BR") == "BR"
    ensures NormalizeCountryCode("us") == "us"
    ensures !StateApplies(NormalizeCountryCode("ca"))
  {
    assert !SpelledInAnyCase("brazil", "united states");
    assert !SpelledInAnyCase("ca", "united states");
  }

  lemma UnitedStatesSpellings()
    ensures NormalizeCountryCode("USA") == "US"
    ensures NormalizeCountryCode("United States") == "US"
  {
    assert SpelledInAnyCase("USA", "usa");
    assert SpelledInAnyCase("United States", "united states");
  }
}
