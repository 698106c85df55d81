/** `condSet` and the station field mapping of `parseAdifQSO`.

    `condSet(src, dest, field, destField, f)` writes `dest[destField || field]` when the
    record's field is truthy. Its destinations (`qso.our`, `qso.their`, a QSL source
    object) are fresh objects that nothing else refers to, so writing into one in place
    is modelled as computing its next value. The long runs of `condSet` calls that fill
    in "their" and "our" station are kept as tables of rows applied in order. */
module Fields {
  import opened Js
  import opened Adif
  import opened Frequency
  import opened County

  /** A value stored in a station object. */
  datatype Value = Text(s: string) | Number(n: Num) | FreqValue(f: Freq) | Undefined

  /** `qso.our` or `qso.their`. */
  type Station = map<string, Value>

  /** `destField || field`. */
  function DestKey(field: string, destField: string): string
  {
    if destField == "" then field else destField
  }

  /** `condSet`: the record's field, converted by `f`, lands under the destination key
      when the field is truthy; no other key is touched, and otherwise nothing changes.
      A call without `f` passes the conversion that keeps the text as it is. */
  function CondSet<V>(src: Record, dest: map<string, V>, field: string, destField: string,
                      f: string -> V): (d: map<string, V>)
    ensures d.Keys == if Truthy(src, field) then dest.Keys + {DestKey(field, destField)} else dest.Keys
    ensures Truthy(src, field) ==> d[DestKey(field, destField)] == f(src[field])
    ensures forall k :: k in dest && k != DestKey(field, destField) ==> d[k] == dest[k]
    ensures !Truthy(src, field) ==> d == dest
  {
    if Truthy(src, field) then dest[DestKey(field, destField) := f(src[field])] else dest
  }

  /** The conversions the station tables use: none, `parseInt(x, 10)`, and
      `cleanupCounty(station.country, x)`. */
  datatype Conversion = AsText | AsInt | AsCounty

  /** `station.country` as the county conversion reads it. */
  function CountryOf(st: Station): Option<string>
  {
    if "country" in st && st["country"].Text? then Some(st["country"].s) else None
  }

  /** The function a conversion stands for, given the station as it is at the call
      (the county conversion reads the station's current country). */
  function Converter(c: Conversion, st: Station): string -> Value
  {
    match c
    case AsText => (x: string) => Text(x)
    case AsInt => (x: string) => Number(ParseInt(x))
    case AsCounty => (x: string) => Text(CleanupCounty(CountryOf(st), x))
  }

  /** One `condSet(adifQSO, station, field, destField, f)` call. */
  datatype Rule = Rule(field: string, destField: string, conversion: Conversion)

  function Fire(rec: Record, st: Station, rule: Rule): Station
  {
    CondSet(rec, st, rule.field, rule.destField, Converter(rule.conversion, st))
  }

  /** The calls of a table, first row first. */
  function ApplyRules(rec: Record, st: Station, rules: seq<Rule>): Station
  {
    if rules == [] then st
    else Fire(rec, ApplyRules(rec, st, rules[..|rules| - 1]), rules[|rules| - 1])
  }

  /** The row writes `key` for this record. */
  predicate Writes(rec: Record, rule: Rule, key: string)
  {
    DestKey(rule.field, rule.destField) == key && Truthy(rec, rule.field)
  }

  /** The last row of the table that writes `key` for this record, if any. */
  function LastWriter(rec: Record, rules: seq<Rule>, key: string): (r: Option<nat>)
    ensures r.Some? ==> r.value < |rules| && Writes(rec, rules[r.value], key)
    ensures r.Some? ==> forall j :: r.value < j < |rules| ==> !Writes(rec, rules[j], key)
    ensures r.None? ==> forall j :: 0 <= j < |rules| ==> !Writes(rec, rules[j], key)
  {
    if rules == [] then None
    else if Writes(rec, rules[|rules| - 1], key) then Some(|rules| - 1)
    else LastWriter(rec, rules[..|rules| - 1], key)
  }

  /** A later alias overwrites an earlier one: after the table, a key holds what its
      last writing row converted, from the station as that row saw it; a key no row
      writes keeps its old value or stays absent. */
  lemma LastWriterWins(rec: Record, st: Station, rules: seq<Rule>, key: string)
    ensures match LastWriter(rec, rules, key)
      case None =>
        (key in ApplyRules(rec, st, rules) <==> key in st) &&
        (key in st ==> ApplyRules(rec, st, rules)[key] == st[key])
      case Some(i) =>
        var rule := rules[i];
        key in ApplyRules(rec, st, rules) &&
        ApplyRules(rec, st, rules)[key] ==
          Converter(rule.conversion, ApplyRules(rec, st, rules[..i]))(rec[rule.field])
  {
    match LastWriter(rec, rules, key)
    case None => NoWriterKeeps(rec, st, rules, key);
    case Some(i) => LastWriterKeeps(rec, st, rules, key, i);
  }

  /** No row writes the key: it keeps its old value, or stays absent. */
  lemma {:induction false} NoWriterKeeps(rec: Record, st: Station, rules: seq<Rule>, key: string)
    requires forall j :: 0 <= j < |rules| ==> !Writes(rec, rules[j], key)
    ensures (key in ApplyRules(rec, st, rules) <==> key in st) &&
            (key in st ==> ApplyRules(rec, st, rules)[key] == st[key])
  {
    if rules != [] {
      var n := |rules| - 1;
      NoWriterKeeps(rec, st, rules[..n], key);
      FireKeeps(rec, ApplyRules(rec, st, rules[..n]), rules[n], key);
    }
  }

  /** Row `i` writes the key and no later row does: the key holds what row `i` wrote. */
  lemma {:induction false} LastWriterKeeps(rec: Record, st: Station, rules: seq<Rule>, key: string, i: nat)
    requires i < |rules| && Writes(rec, rules[i], key)
    requires forall j :: i < j < |rules| ==> !Writes(rec, rules[j], key)
    ensures key in ApplyRules(rec, st, rules)
    ensures ApplyRules(rec, st, rules)[key] ==
      Converter(rules[i].conversion, ApplyRules(rec, st, rules[..i]))(rec[rules[i].field])
  {
    var n := |rules| - 1;
    var before := ApplyRules(rec, st, rules[..n]);
    assert ApplyRules(rec, st, rules) == Fire(rec, before, rules[n]);
    if i < n {
      LastWriterKeeps(rec, st, rules[..n], key, i);
      assert rules[..n][..i] == rules[..i];
      FireKeeps(rec, before, rules[n], key);
    } else {
      assert rules[..n] == rules[..i];
      FireWrites(rec, before, rules[n], key);
    }
  }

  /** A row that does not write the key leaves it as it was. */
  lemma FireKeeps(rec: Record, st: Station, rule: Rule, key: string)
    requires !Writes(rec, rule, key)
    ensures (key in Fire(rec, st, rule) <==> key in st) && (key in st ==> Fire(rec, st, rule)[key] == st[key])
  {
  }

  /** A row that writes the key stores its conversion of the record's field. */
  lemma FireWrites(rec: Record, st: Station, rule: Rule, key: string)
    requires Writes(rec, rule, key)
    ensures key in Fire(rec, st, rule)
    ensures Fire(rec, st, rule)[key] == Converter(rule.conversion, st)(rec[rule.field])
  {
  }

  /** Lines 69-70: `operator` and `station_callsign` into "our". */
  const OurHeadRules: seq<Rule> := [
    Rule("operator", "operator", AsText),
    Rule("station_callsign", "call", AsText)
  ]

  /** Line 71: the call of the station worked. */
  const TheirHeadRules: seq<Rule> := [
    Rule("call", "call", AsText)
  ]

  /** Lines 237-255: the fields of the station worked. */
  const TheirRules: seq<Rule> := [
    Rule("name", "name", AsText),
    Rule("cont", "continent", AsText),
    Rule("country", "entityName", AsText),
    Rule("country", "country", AsText),
    Rule("qth", "qth", AsText),
    Rule("city", "city", AsText),
    Rule("state", "state", AsText),
    Rule("rst_rcvd", "sent", AsText),
    Rule("cnty", "county", AsCounty),
    Rule("cqz", "cqZone", AsInt),
    Rule("cq_zone", "cqZone", AsInt),
    Rule("ituz", "ituZone", AsInt),
    Rule("itu_zone", "ituZone", AsInt),
    Rule("dxcc", "dxccCode", AsInt),
    Rule("email", "email", AsText),
    Rule("gridsquare", "grid", AsText),
    Rule("lat", "lat", AsText),
    Rule("lon", "lon", AsText),
    Rule("ituPrefix", "entityPrefix", AsText)
  ]

  /** Lines 257-277: our own station. */
  const OurRules: seq<Rule> := [
    Rule("my_name", "name", AsText),
    Rule("my_cont", "continent", AsText),
    Rule("my_country", "entityName", AsText),
    Rule("my_country", "country", AsText),
    Rule("my_qth", "qth", AsText),
    Rule("my_city", "city", AsText),
    Rule("my_state", "state", AsText),
    Rule("my_rst_sent", "sent", AsText),
    Rule("my_cnty", "county", AsCounty),
    Rule("my_cqz", "cqZone", AsInt),
    Rule("my_cq_zone", "cqZone", AsInt),
    Rule("my_ituz", "ituZone", AsInt),
    Rule("my_itu_zone", "ituZone", AsInt),
    Rule("my_dxcc", "dxccCode", AsInt),
    Rule("my_email", "email", AsText),
    Rule("my_gridsquare", "grid", AsText),
    Rule("my_lat", "lat", AsText),
    Rule("my_lon", "lon", AsText),
    Rule("my_pfx", "entityPrefix", AsText),
    Rule("tx_pwr", "power", AsText)
  ]

  /** The only rows of a table that can write `key`. */
  predicate OnlyRowsFor(rules: seq<Rule>, key: string, rows: set<nat>)
  {
    forall j :: 0 <= j < |rules| && DestKey(rules[j].field, rules[j].destField) == key ==> j in rows
  }

  /** Two aliases `early` (row `a`) and `late` (row `b > a`) of one integer field `key`:
      the later one wins when both are present, either one alone is used, and with
      neither the key is left as it was. */
  lemma AliasedInt(rec: Record, st: Station, rules: seq<Rule>, key: string,
                   a: nat, b: nat, early: string, late: string)
    requires key != "" && a < b < |rules| && OnlyRowsFor(rules, key, {a, b})
    requires rules[a] == Rule(early, key, AsInt) && rules[b] == Rule(late, key, AsInt)
    ensures var out := ApplyRules(rec, st, rules);
      (Truthy(rec, late) ==> key in out && out[key] == Number(ParseInt(rec[late]))) &&
      (!Truthy(rec, late) && Truthy(rec, early) ==> key in out && out[key] == Number(ParseInt(rec[early]))) &&
      (!Truthy(rec, late) && !Truthy(rec, early) ==>
         (key in out <==> key in st) && (key in st ==> out[key] == st[key]))
  {
    LastWriterWins(rec, st, rules, key);
    var w := LastWriter(rec, rules, key);
    if Truthy(rec, late) {
      assert Writes(rec, rules[b], key);
      assert w == Some(b);
    } else if Truthy(rec, early) {
      assert Writes(rec, rules[a], key);
      assert w == Some(a);
    } else {
      assert w.None?;
    }
  }

  /** A key that a single text row `k` writes: it holds the tag's text when the tag is
      truthy, and is left as it was otherwise. */
  lemma SingleTextRow(rec: Record, st: Station, rules: seq<Rule>, key: string, k: nat, tag: string)
    requires key != "" && k < |rules| && OnlyRowsFor(rules, key, {k}) && rules[k] == Rule(tag, key, AsText)
    ensures var out := ApplyRules(rec, st, rules);
      (Truthy(rec, tag) ==> key in out && out[key] == Text(rec[tag])) &&
      (!Truthy(rec, tag) ==> (key in out <==> key in st) && (key in st ==> out[key] == st[key]))
  {
    LastWriterWins(rec, st, rules, key);
    if Truthy(rec, tag) {
      assert Writes(rec, rules[k], key);
      assert LastWriter(rec, rules, key) == Some(k);
    } else {
      assert LastWriter(rec, rules, key).None?;
    }
  }

  /** "their": `cq_zone` overrides `cqz` and `itu_zone` overrides `ituz`. */
  lemma TheirZoneAliases(rec: Record, st: Station)
    ensures var out := ApplyRules(rec, st, TheirRules);
      (Truthy(rec, "cq_zone") ==>
         "cqZone" in out && out["cqZone"] == Number(ParseInt(rec["cq_zone"]))) &&
      (!Truthy(rec, "cq_zone") && Truthy(rec, "cqz") ==>
         "cqZone" in out && out["cqZone"] == Number(ParseInt(rec["cqz"]))) &&
      (Truthy(rec, "itu_zone") ==>
         "ituZone" in out && out["ituZone"] == Number(ParseInt(rec["itu_zone"]))) &&
      (!Truthy(rec, "itu_zone") && Truthy(rec, "ituz") ==>
         "ituZone" in out && out["ituZone"] == Number(ParseInt(rec["ituz"])))
  {
    TheirZoneRows();
    AliasedInt(rec, st, TheirRules, "cqZone", 9, 10, "cqz", "cq_zone");
    AliasedInt(rec, st, TheirRules, "ituZone", 11, 12, "ituz", "itu_zone");
  }

  /** The rows of the "their" table that write the zones. */
  lemma TheirZoneRows()
    ensures OnlyRowsFor(TheirRules, "cqZone", {9, 10}) && OnlyRowsFor(TheirRules, "ituZone", {11, 12})
    ensures TheirRules[9] == Rule("cqz", "cqZone", AsInt) && TheirRules[10] == Rule("cq_zone", "cqZone", AsInt)
    ensures TheirRules[11] == Rule("ituz", "ituZone", AsInt) && TheirRules[12] == Rule("itu_zone", "ituZone", AsInt)
  {
    TheirCqRows();
    TheirItuRows();
  }

  lemma TheirCqRows()
    ensures OnlyRowsFor(TheirRules, "cqZone", {9, 10})
  {
  }

  lemma TheirItuRows()
    ensures OnlyRowsFor(TheirRules, "ituZone", {11, 12})
  {
  }

  /** "our": `my_cq_zone` overrides `my_cqz` and `my_itu_zone` overrides `my_ituz`. */
  lemma OurZoneAliases(rec: Record, st: Station)
    ensures var out := ApplyRules(rec, st, OurRules);
      (Truthy(rec, "my_cq_zone") ==>
         "cqZone" in out && out["cqZone"] == Number(ParseInt(rec["my_cq_zone"]))) &&
      (!Truthy(rec, "my_cq_zone") && Truthy(rec, "my_cqz") ==>
         "cqZone" in out && out["cqZone"] == Number(ParseInt(rec["my_cqz"]))) &&
      (Truthy(rec, "my_itu_zone") ==>
         "ituZone" in out && out["ituZone"] == Number(ParseInt(rec["my_itu_zone"]))) &&
      (!Truthy(rec, "my_itu_zone") && Truthy(rec, "my_ituz") ==>
         "ituZone" in out && out["ituZone"] == Number(ParseInt(rec["my_ituz"])))
  {
    OurZoneRows();
    AliasedInt(rec, st, OurRules, "cqZone", 9, 10, "my_cqz", "my_cq_zone");
    AliasedInt(rec, st, OurRules, "ituZone", 11, 12, "my_ituz", "my_itu_zone");
  }

  /** The rows of the "our" table that write the zones. */
  lemma OurZoneRows()
    ensures OnlyRowsFor(OurRules, "cqZone", {9, 10}) && OnlyRowsFor(OurRules, "ituZone", {11, 12})
    ensures OurRules[9] == Rule("my_cqz", "cqZone", AsInt) && OurRules[10] == Rule("my_cq_zone", "cqZone", AsInt)
    ensures OurRules[11] == Rule("my_ituz", "ituZone", AsInt) && OurRules[12] == Rule("my_itu_zone", "ituZone", AsInt)
  {
    OurCqRows();
    OurItuRows();
  }

  lemma OurCqRows()
    ensures OnlyRowsFor(OurRules, "cqZone", {9, 10})
  {
  }

  lemma OurItuRows()
    ensures OnlyRowsFor(OurRules, "ituZone", {11, 12})
  {
  }

  /** A county row `k` with a single country row `c` before it and no other row for
      either key: the county is cleaned up against the country the record gives, or,
      without one, against the country the station held before the table. */
  lemma CountyAfterCountry(rec: Record, st: Station, rules: seq<Rule>, c: nat, k: nat,
                           countryTag: string, countyTag: string)
    requires c < k < |rules| && OnlyRowsFor(rules, "county", {k}) && OnlyRowsFor(rules[..k], "country", {c})
    requires rules[c] == Rule(countryTag, "country", AsText) && rules[k] == Rule(countyTag, "county", AsCounty)
    requires Truthy(rec, countyTag)
    ensures var out := ApplyRules(rec, st, rules);
      var country := if Truthy(rec, countryTag) then Some(rec[countryTag]) else CountryOf(st);
      "county" in out && out["county"] == Text(CleanupCounty(country, rec[countyTag]))
  {
    LastWriterKeeps(rec, st, rules, "county", k);
    CountryBefore(rec, st, rules[..k], c, countryTag);
  }

  /** The country a station holds after a table whose only country row is `c`. */
  lemma CountryBefore(rec: Record, st: Station, rules: seq<Rule>, c: nat, countryTag: string)
    requires c < |rules| && OnlyRowsFor(rules, "country", {c}) && rules[c] == Rule(countryTag, "country", AsText)
    ensures CountryOf(ApplyRules(rec, st, rules)) ==
              if Truthy(rec, countryTag) then Some(rec[countryTag]) else CountryOf(st)
  {
    if Truthy(rec, countryTag) {
      LastWriterKeeps(rec, st, rules, "country", c);
    } else {
      NoWriterKeeps(rec, st, rules, "country");
    }
  }

  /** The county of "their" station is `cleanupCounty` of the record's own country, which
      the `country` row has just written, or of the country the station already held. */
  lemma TheirCountyUsesCountry(rec: Record, st: Station)
    requires Truthy(rec, "cnty")
    ensures var out := ApplyRules(rec, st, TheirRules);
      var country := if Truthy(rec, "country") then Some(rec["country"]) else CountryOf(st);
      "county" in out && out["county"] == Text(CleanupCounty(country, rec["cnty"]))
  {
    TheirCountyRows();
    CountyAfterCountry(rec, st, TheirRules, 3, 8, "country", "cnty");
  }

  /** The county of "our" station is `cleanupCounty` of the record's `my_country`, or of
      the country the station already held. */
  lemma OurCountyUsesCountry(rec: Record, st: Station)
    requires Truthy(rec, "my_cnty")
    ensures var out := ApplyRules(rec, st, OurRules);
      var country := if Truthy(rec, "my_country") then Some(rec["my_country"]) else CountryOf(st);
      "county" in out && out["county"] == Text(CleanupCounty(country, rec["my_cnty"]))
  {
    OurCountyRows();
    CountyAfterCountry(rec, st, OurRules, 3, 8, "my_country", "my_cnty");
  }

  /** A key no row of the table writes for this record keeps its old value, or stays absent. */
  lemma Untouched(rec: Record, st: Station, rules: seq<Rule>, key: string)
    requires OnlyRowsFor(rules, key, {})
    ensures var out := ApplyRules(rec, st, rules);
      (key in out <==> key in st) && (key in st ==> out[key] == st[key])
  {
    LastWriterWins(rec, st, rules, key);
    assert LastWriter(rec, rules, key).None?;
  }

  /** Row 19 of the "their" table names the tag `ituPrefix` in camel case; with the
      tokenizer's lower-case tags it never fires, so the table never sets `entityPrefix`. */
  lemma TheirEntityPrefixNeverSet(rec: Record, st: Station)
    requires LowerCaseTags(rec)
    ensures var out := ApplyRules(rec, st, TheirRules);
      ("entityPrefix" in out <==> "entityPrefix" in st) &&
      ("entityPrefix" in st ==> out["entityPrefix"] == st["entityPrefix"])
  {
    CamelCaseTagAbsent(rec);
    EntityPrefixWithoutTag(rec, st);
  }

  lemma CamelCaseTagAbsent(rec: Record)
    requires LowerCaseTags(rec)
    ensures "ituPrefix" !in rec
  {
    assert "ituPrefix"[3] == 'P';
  }

  lemma EntityPrefixWithoutTag(rec: Record, st: Station)
    requires "ituPrefix" !in rec
    ensures var out := ApplyRules(rec, st, TheirRules);
      ("entityPrefix" in out <==> "entityPrefix" in st) &&
      ("entityPrefix" in st ==> out["entityPrefix"] == st["entityPrefix"])
  {
    TheirPrefixRows();
    LastWriterWins(rec, st, TheirRules, "entityPrefix");
    assert LastWriter(rec, TheirRules, "entityPrefix").None?;
  }

  /** The rows that write "county", and the rows before it that write "country". */
  lemma TheirCountyRows()
    ensures OnlyRowsFor(TheirRules, "county", {8}) && OnlyRowsFor(TheirRules[..8], "country", {3})
  {
    TheirCountyRow();
    TheirCountryRow();
  }

  lemma TheirCountyRow()
    ensures OnlyRowsFor(TheirRules, "county", {8})
  {
  }

  lemma TheirCountryRow()
    ensures OnlyRowsFor(TheirRules[..8], "country", {3})
  {
  }

  lemma OurCountyRows()
    ensures OnlyRowsFor(OurRules, "county", {8}) && OnlyRowsFor(OurRules[..8], "country", {3})
  {
    OurCountyRow();
    OurCountryRow();
  }

  lemma OurCountyRow()
    ensures OnlyRowsFor(OurRules, "county", {8})
  {
  }

  lemma OurCountryRow()
    ensures OnlyRowsFor(OurRules[..8], "country", {3})
  {
  }

  lemma TheirPrefixRows()
    ensures OnlyRowsFor(TheirRules, "entityPrefix", {18}) && TheirRules[18].field == "ituPrefix"
  {
  }

  /** The rows that write "sent": the signal report rows. */
  lemma TheirSentRow()
    ensures OnlyRowsFor(TheirRules, "sent", {7})
  {
  }

  lemma OurSentRow()
    ensures OnlyRowsFor(OurRules, "sent", {7})
  {
  }

  /** The keys the station tables never write: the calls, the operator, and the
      receive frequency and band. */
  lemma TheirCallUnwritten() ensures OnlyRowsFor(TheirRules, "call", {}) { }
  lemma OurCallUnwritten() ensures OnlyRowsFor(OurRules, "call", {}) { }
  lemma OperatorUnwritten() ensures OnlyRowsFor(OurRules, "operator", {}) { }
  lemma FreqUnwritten() ensures OnlyRowsFor(TheirRules, "freq", {}) { }
  lemma BandUnwritten() ensures OnlyRowsFor(TheirRules, "band", {}) { }
}
