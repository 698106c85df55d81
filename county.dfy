/** `cleanupCounty`: turns an ADIF county ("State,County") into a prefixed path. The
    first comma and the white space after it become a slash, and the prefix depends on
    the country: "US/" for the United States, Hawaii and Alaska, none for Puerto Rico,
    "??/" for everything else. */
module County {
  import opened Js

  predicate NoComma(s: string) { forall i :: 0 <= i < |s| ==> s[i] != ',' }

  /** The first comma of `s` at or after `from`. */
  function FirstComma(s: string, from: nat): (r: Option<nat>)
    ensures r.Some? ==> from <= r.value < |s| && s[r.value] == ','
    ensures r.Some? ==> forall j :: from <= j < r.value ==> s[j] != ','
    ensures r.None? ==> forall j :: from <= j < |s| ==> s[j] != ','
    decreases |s| - from
  {
    if from >= |s| then None
    else if s[from] == ',' then Some(from)
    else FirstComma(s, from + 1)
  }

  /** `s.replace(/,\s*\/, "/")`: the leftmost comma, with the white space that greedily
      follows it, becomes one slash. */
  function ReplaceFirstComma(s: string): string
  {
    match FirstComma(s, 0)
    case None => s
    case Some(i) => s[..i] + "/" + TrimStart(s[i + 1..])
  }

  /** Without a comma the county is returned as it is. */
  lemma ReplaceWithoutComma(s: string)
    requires NoComma(s)
    ensures ReplaceFirstComma(s) == s
  {
    assert FirstComma(s, 0).None?;
  }

  /** The comma at `i`, the first one, and the white space after it become one slash;
      everything before it and everything after the white space is kept, later commas
      included. */
  lemma ReplaceAtFirstComma(s: string, i: nat)
    requires i < |s| && s[i] == ',' && NoComma(s[..i])
    ensures ReplaceFirstComma(s) == s[..i] + "/" + TrimStart(s[i + 1..])
  {
    assert forall j :: 0 <= j < i ==> s[j] == s[..i][j];
    assert FirstComma(s, 0) == Some(i);
  }

  const UsCountries: seq<string> := ["United States", "Hawaii", "Alaska"]

  /** `/(United States|Hawaii|Alaska)/i` matches somewhere in the country name. */
  predicate IsUsCountry(country: Option<string>)
  {
    country.Some? && exists p :: p in UsCountries && ContainsIgnoringCase(country.value, p)
  }

  /** `/(Puerto Rico)/i` matches somewhere in the country name. */
  predicate IsPuertoRico(country: Option<string>)
  {
    country.Some? && ContainsIgnoringCase(country.value, "Puerto Rico")
  }

  /** The prefix `cleanupCounty` puts in front of the reformatted county. */
  function CountyPrefix(country: Option<string>): (p: string)
    ensures IsUsCountry(country) ==> p == "US/"
    ensures !IsUsCountry(country) && IsPuertoRico(country) ==> p == ""
    ensures !IsUsCountry(country) && !IsPuertoRico(country) ==> p == "??/"
  {
    if IsUsCountry(country) then "US/" else if IsPuertoRico(country) then "" else "??/"
  }

  /** The country's prefix, then the county with its first comma turned into a slash. */
  function CleanupCounty(country: Option<string>, county: string): (r: string)
    ensures r == CountyPrefix(country) + ReplaceFirstComma(county)
  {
    if IsUsCountry(country) then "US/" + ReplaceFirstComma(county)
    else if IsPuertoRico(country) then ReplaceFirstComma(county)
    else "??/" + ReplaceFirstComma(county)
  }

  /** A county written "State,Name" or "State, Name" keeps both parts around one slash,
      and any later comma in the name is left alone. */
  lemma CountyShape(country: Option<string>, state: string, gap: string, name: string)
    requires NoComma(state)
    requires forall i :: 0 <= i < |gap| ==> IsSpace(gap[i])
    requires name == "" || !IsSpace(name[0])
    ensures CleanupCounty(country, state + "," + gap + name) == CountyPrefix(country) + state + "/" + name
  {
    ReplaceShape(state, gap, name);
  }

  lemma ReplaceShape(state: string, gap: string, name: string)
    requires NoComma(state)
    requires forall i :: 0 <= i < |gap| ==> IsSpace(gap[i])
    requires name == "" || !IsSpace(name[0])
    ensures ReplaceFirstComma(state + "," + gap + name) == state + "/" + name
  {
    var s := state + "," + gap + name;
    assert s == state + ("," + (gap + name));
    assert s[..|state|] == state;
    assert s[|state|] == ',';
    assert s[|state| + 1..] == gap + name;
    ReplaceAtFirstComma(s, |state|);
    TrimStartOfSpaces(gap, name);
  }

  lemma {:induction false} TrimStartOfSpaces(gap: string, rest: string)
    requires forall i :: 0 <= i < |gap| ==> IsSpace(gap[i])
    requires rest == "" || !IsSpace(rest[0])
    ensures TrimStart(gap + rest) == rest
  {
    if gap != "" {
      assert (gap + rest)[1..] == gap[1..] + rest;
      TrimStartOfSpaces(gap[1..], rest);
    }
  }

  /** A country name that starts with one of the US names, in any letter case. */
  lemma {:induction false} UsCountryByPrefix(country: string, p: string)
    requires p in UsCountries && StartsWithIgnoringCase(country, p)
    ensures IsUsCountry(Some(country))
  {
    ContainsIgnoringCaseAt(country, p, 0);
    assert country[0..] == country;
  }

  /** A US county of the form "State,<spaces>Name" becomes "US/State/Name". */
  lemma UsCounty(country: string, p: string, state: string, gap: string, name: string)
    requires p in UsCountries && StartsWithIgnoringCase(country, p)
    requires NoComma(state)
    requires forall i :: 0 <= i < |gap| ==> IsSpace(gap[i])
    requires name == "" || !IsSpace(name[0])
    ensures CleanupCounty(Some(country), state + "," + gap + name) == "US/" + state + "/" + name
  {
    UsCountryByPrefix(country, p);
    CountyShape(Some(country), state, gap, name);
  }

  /** "United States", in title case or in upper case, is a US country. */
  lemma UnitedStatesIsUs(country: string)
    requires country == "United States" || country == "UNITED STATES"
    ensures IsUsCountry(Some(country))
  {
    assert StartsWithIgnoringCase(country, UsCountries[0]);
    UsCountryByPrefix(country, UsCountries[0]);
  }

  /** Inputs that give the outputs expected at src/lib/qson-adif.spec.js:19 and :25:
      "NY,SULLIVAN" in the United States becomes "US/NY/SULLIVAN" and "GA, UNION" becomes
      "US/GA/UNION". The strings are parameters so that the verifier does not unfold the
      searches on literals. */
  lemma SullivanExample(country: string, state: string, name: string)
    requires country == "United States" && state == "NY" && name == "SULLIVAN"
    ensures CleanupCounty(Some(country), state + "," + name) == "US/" + state + "/" + name
  {
    UnitedStatesIsUs(country);
    CountyShape(Some(country), state, "", name);
    assert state + "," + "" + name == state + "," + name;
  }

  lemma UnionExample(country: string, state: string, gap: string, name: string)
    requires country == "UNITED STATES" && state == "GA" && gap == " " && name == "UNION"
    ensures CleanupCounty(Some(country), state + "," + gap + name) == "US/" + state + "/" + name
  {
    UnitedStatesIsUs(country);
    CountyShape(Some(country), state, gap, name);
  }
}
