/** Case-insensitive label matching, as the engine's `/fuel/i` and `/gratuity/i`
    tests use it. Both patterns are lower-case ASCII; for such patterns the
    regular-expression engine's case folding (without the `u` flag) matches a
    character exactly when its ASCII lower-case form equals the pattern's. */
module Labels {

  /** ASCII lower-casing of one character; every other character is unchanged. */
  function Lower(c: char): char
  {
    if 'A' <= c <= 'Z' then (c as int + 32) as char else c
  }

  /** `pat` occurs in `s` at offset `i`, ignoring ASCII case. */
  predicate MatchesAt(s: string, pat: string, i: int)
    requires 0 <= i && i + |pat| <= |s|
  {
    forall j | 0 <= j < |pat| :: Lower(s[i + j]) == pat[j]
  }

  /** `/pat/i.test(s)` for a lower-case pattern. */
  predicate ContainsIgnoreCase(s: string, pat: string)
  {
    exists i | 0 <= i && i + |pat| <= |s| :: MatchesAt(s, pat, i)
  }

  const FuelPattern: string := "fuel"
  const GratuityPattern: string := "gratuity"

  /** A label none of whose possible match positions starts with the pattern's
      first letter does not contain the pattern. */
  lemma NoMatchAtAnyStart(s: string, pat: string)
    requires |pat| > 0
    requires forall i | 0 <= i && i + |pat| <= |s| :: Lower(s[i]) != pat[0]
    ensures !ContainsIgnoreCase(s, pat)
  {
    forall i | 0 <= i && i + |pat| <= |s|
      ensures !MatchesAt(s, pat, i)
    {
      assert Lower(s[i + 0]) != pat[0];
    }
  }

  /** The labels the engine itself writes, checked against both patterns. */
  lemma SyntheticLabels()
    ensures ContainsIgnoreCase("Fuel Surcharge", FuelPattern)
    ensures ContainsIgnoreCase("Gratuity", GratuityPattern)
    ensures !ContainsIgnoreCase("Base Rate", FuelPattern)
    ensures !ContainsIgnoreCase("Base Rate", GratuityPattern)
    ensures !ContainsIgnoreCase("Fuel Surcharge", GratuityPattern)
  {
    assert MatchesAt("Fuel Surcharge", FuelPattern, 0);
    assert MatchesAt("Gratuity", GratuityPattern, 0);
    NoMatchAtAnyStart("Base Rate", FuelPattern);
    NoMatchAtAnyStart("Base Rate", GratuityPattern);
    NoMatchAtAnyStart("Fuel Surcharge", GratuityPattern);
  }
}
