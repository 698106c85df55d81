/** `parseAdifQSO`: one tokenised ADIF record becomes a QSO object, or `false` when any
    step throws. The host-library calls it makes (`Date.parse`, the MHz to kHz float
    arithmetic of `parseFrequency`, and `bandForFrequency`) are parameters. */
module Normalise {
  import opened Js
  import opened Adif
  import opened Frequency
  import opened County
  import opened Fields
  import opened Timestamps
  import opened Qsl

  /** `Date.parse(text).valueOf()`, the float part of `parseFrequency`, and `bandForFrequency`. */
  datatype Host = Host(parse: string -> Num, mhzToKhz: string -> real, bandFor: Freq -> Option<string>)

  /** `qso.qsl`. */
  datatype QslSummary = QslSummary(sources: seq<Source>, received: Option<string>, receivedMillis: Option<Num>)

  /** An entry `{type, ref}` of `qso.refs`. */
  datatype Ref = Ref(kind: string, ref: string)

  /** The QSO object. `None` in `start`, `end`, their millis, `qsl`, `refs` and `number`
      is a property the code never set; in `band` and `mode` it is a property assigned
      `undefined` (`bandForFrequency` finding no band, or no `mode` tag). */
  datatype Qso = Qso(our: Station, their: Station, freq: Freq, band: Option<string>, mode: Option<string>,
                     start: Option<string>, startMillis: Option<Num>, end: Option<string>, endMillis: Option<Num>,
                     qsl: Option<QslSummary>, refs: Option<seq<Ref>>, number: Option<nat>)

  /** A band as stored in a station: `bandForFrequency` may give `undefined`. */
  function BandValue(b: Option<string>): Value
  {
    match b
    case Some(s) => Text(s)
    case None => Undefined
  }

  /** Line 74: the `band` tag lower-cased, or else the band of the frequency. */
  function Band(rec: Record, freq: Freq, host: Host): Option<string>
  {
    if Truthy(rec, "band") then Some(ToLowerCase(rec["band"])) else host.bandFor(freq)
  }

  /** Lines 76-79: with a receive frequency, "their" station gets it and its band; the
      `band_rx` tag is taken as it is, without lower-casing. */
  function WithReceiveFrequency(rec: Record, their: Station, host: Host): Station
  {
    if Truthy(rec, "freq_rx") then
      var freq := ParseFrequency(Get(rec, "freq_rx"), host.mhzToKhz);
      their["freq" := FreqValue(freq)]
           ["band" := if Truthy(rec, "band_rx") then Text(rec["band_rx"]) else BandValue(host.bandFor(freq))]
    else their
  }

  /** `station.sent` in a string concatenation: `undefined` when it was never set (the
      tables only ever write `sent` as text). */
  function SentText(st: Station): string
  {
    if "sent" in st && st["sent"].Text? then st["sent"].s else "undefined"
  }

  /** Lines 282-287: `station.sent = station.sent + " " + exchange` when the tag is given. */
  function AppendExchange(rec: Record, st: Station, tag: string): Station
  {
    if Truthy(rec, tag) then st["sent" := Text(SentText(st) + " " + rec[tag])] else st
  }

  /** Lines 279-281: the contest reference. */
  function ContestRefs(rec: Record): Option<seq<Ref>>
  {
    if Truthy(rec, "contest_id") then Some([Ref("contest", rec["contest_id"])]) else None
  }

  /** Lines 144-235: `qso.qsl` exists once a channel has pushed a source, and carries the
      earliest received date. */
  function Summarise(sources: seq<Source>, parse: string -> Num): Option<QslSummary>
  {
    if sources == [] then None
    else
      var e := EarliestOf(sources, parse);
      Some(QslSummary(sources, e.received, e.millis))
  }

  /** "their" station just before the contest block. */
  function TheirFields(rec: Record, host: Host): Station
  {
    ApplyRules(rec, WithReceiveFrequency(rec, ApplyRules(rec, map[], TheirHeadRules), host), TheirRules)
  }

  /** "our" station just before the contest block. */
  function OurFields(rec: Record): Station
  {
    ApplyRules(rec, ApplyRules(rec, map[], OurHeadRules), OurRules)
  }

  /** A record is dropped exactly when one of the two throwing reads happens: `time_off`
      with no date at all, or an eQSL date gated on a tag other than the one read. */
  predicate Throws(rec: Record)
  {
    (Truthy(rec, "time_off") && !Truthy(rec, "qso_date") && !Truthy(rec, "qso_date_off")) ||
    EqslDateMissing(rec)
  }

  /** The whole of `parseAdifQSO`, `None` standing for the `false` of the catch block. */
  function NormaliseRecord(rec: Record, host: Host): (r: Option<Qso>)
    ensures r.None? <==> Throws(rec)
    ensures r.Some? ==> r.value.number.None?
    ensures r.Some? ==> (r.value.qsl.Some? <==> FiredChannels(rec) != [])
    ensures r.Some? && r.value.qsl.Some? ==> Vias(r.value.qsl.value.sources) == FiredChannels(rec)
    ensures r.Some? ==> (r.value.refs.Some? <==> Truthy(rec, "contest_id"))
    ensures r.Some? ==> (r.value.start.Some? <==> Truthy(rec, "qso_date") || Truthy(rec, "qso_date_off"))
  {
    match ReconstructBounds(rec, host.parse)
    case Thrown => None
    case Ok(b) =>
      match QslSources(rec)
      case Thrown => None
      case Ok(sources) =>
        var freq := ParseFrequency(Get(rec, "freq"), host.mhzToKhz);
        var contest := Truthy(rec, "contest_id");
        var their := TheirFields(rec, host);
        var our := OurFields(rec);
        Some(Qso(
          if contest then AppendExchange(rec, our, "stx") else our,
          if contest then AppendExchange(rec, their, "srx") else their,
          freq, Band(rec, freq, host), Get(rec, "mode"),
          b.start, b.startMillis, b.end, b.endMillis,
          Summarise(sources, host.parse), ContestRefs(rec), None))
  }

  /** Lines 83-142, step by step. */
  method BuildBounds(rec: Record, parse: string -> Num) returns (r: Outcome<Bounds>)
    ensures r == ReconstructBounds(rec, parse)
  {
    var start: Option<string> := None;
    var startMillis: Option<Num> := None;
    var end: Option<string> := None;
    var endMillis: Option<Num> := None;
    if Truthy(rec, "qso_date") {
      start := Some(StartText(rec));
      startMillis := Some(parse(start.value));
    }
    if Truthy(rec, "qso_date_off") {
      var text := DateText(rec["qso_date_off"]);
      if Truthy(rec, "time_off") {
        text := text + ("T" + ClockText(rec["time_off"]) + "Z");
      } else {
        text := text + " 00:00:00Z";
      }
      end, endMillis := Some(text), Some(parse(text));
    } else if Truthy(rec, "time_off") {
      if start.None? {
        return Thrown;
      }
      var text := Substr(start.value, 0, 10) + "T" + ClockText(rec["time_off"]) + "Z";
      end, endMillis := Some(text), Some(parse(text));
    }
    assert Ok(Mirror(start, end, parse)) == ReconstructBounds(rec, parse);
    if end.None? && start.Some? {
      end, endMillis := start, startMillis;
    }
    if start.None? && end.Some? {
      start, startMillis := end, endMillis;
    }
    r := Ok(Bounds(start, startMillis, end, endMillis));
  }

  /** Lines 144-223: each channel that fires pushes one source object. */
  method CollectSources(rec: Record) returns (r: Outcome<seq<Source>>)
    ensures r == QslSources(rec)
  {
    var sources: seq<Source> := [];
    if Truthy(rec, "app_qrzlog_qsldate") {
      var data := CondSet(rec, map["via" := "qrz"], "app_qrzlog_logid", "id", Verbatim);
      data := data["received" := DayEnd(rec["app_qrzlog_qsldate"])];
      sources := sources + [data];
    }
    assert sources == QrzSource(rec);
    if Truthy(rec, "lotw_qslrdate") {
      var data := map["via" := "lotw"];
      data := data["received" := DayEnd(rec["lotw_qslrdate"])];
      if Truthy(rec, "lotw_qslsdate") {
        data := data["sent" := DayEnd(rec["lotw_qslsdate"])];
      }
      sources := sources + [data];
    }
    assert sources == QrzSource(rec) + LotwSource(rec);
    if FieldIs(rec, "eqsl_qsl_rcvd", "Y") {
      var data := map["via" := "eqsl"];
      if Truthy(rec, "eqsl_sql_rdate") {
        if "eqsl_qsl_rdate" !in rec {
          return Thrown;
        }
        data := data["received" := DayEnd(rec["eqsl_qsl_rdate"])];
      }
      sources := sources + [data];
    }
    assert EqslSource(rec).Ok?;
    assert sources == QrzSource(rec) + LotwSource(rec) + EqslSource(rec).value;
    if Truthy(rec, "app_lotw_rxqsl") {
      var data := map["via" := "lotw"];
      data := CondSet(rec, data, "app_lotw_rxqsl", "received", LotwStamp);
      data := CondSet(rec, data, "app_lotw_rxqso", "sent", LotwStamp);
      sources := sources + [data];
    }
    assert sources == QrzSource(rec) + LotwSource(rec) + EqslSource(rec).value + LotwAppSource(rec);
    if FieldIs(rec, "qsl_rcvd", "Y") {
      var data := map["via" := "card"];
      data := CondSet(rec, data, "qslrdate", "received", DayEnd);
      data := CondSet(rec, data, "qslsdate", "sent", DayEnd);
      sources := sources + [data];
    }
    assert sources == QrzSource(rec) + LotwSource(rec) + EqslSource(rec).value + LotwAppSource(rec) + CardSource(rec);
    return Ok(sources);
  }

  /** `parseAdifQSO` (lines 65-301): the object is filled in step by step, and a throw at
      any step drops the record. */
  method ParseAdifQso(rec: Record, host: Host) returns (r: Option<Qso>)
    ensures r == NormaliseRecord(rec, host)
  {
    var our := ApplyRules(rec, map[], OurHeadRules);
    var their := ApplyRules(rec, map[], TheirHeadRules);
    var freq := ParseFrequency(Get(rec, "freq"), host.mhzToKhz);
    var band := Band(rec, freq, host);
    their := WithReceiveFrequency(rec, their, host);
    var mode := Get(rec, "mode");

    var bounds := BuildBounds(rec, host.parse);
    if bounds.Thrown? {
      return None;
    }
    var sources := CollectSources(rec);
    if sources.Thrown? {
      return None;
    }
    var qsl: Option<QslSummary> := None;
    if sources.value != [] {
      var received, millis := PickEarliest(sources.value, host.parse);
      qsl := Some(QslSummary(sources.value, received, millis));
    }

    their := ApplyRules(rec, their, TheirRules);
    our := ApplyRules(rec, our, OurRules);

    var refs: Option<seq<Ref>> := None;
    if Truthy(rec, "contest_id") {
      refs := Some([Ref("contest", rec["contest_id"])]);
      if Truthy(rec, "srx") {
        their := their["sent" := Text(SentText(their) + " " + rec["srx"])];
      }
      if Truthy(rec, "stx") {
        our := our["sent" := Text(SentText(our) + " " + rec["stx"])];
      }
    }
    var b := bounds.value;
    return Some(Qso(our, their, freq, band, mode, b.start, b.startMillis, b.end, b.endMillis, qsl, refs, None));
  }

  /** Lines 83-142: a kept QSO's start, end and their milliseconds are those the date
      block computes. */
  lemma BoundsOfRecord(rec: Record, host: Host)
    requires NormaliseRecord(rec, host).Some?
    ensures var q := NormaliseRecord(rec, host).value;
      ReconstructBounds(rec, host.parse) == Ok(Bounds(q.start, q.startMillis, q.end, q.endMillis))
  {
  }

  /** Line 74: `qso.band` is the lower-cased `band` tag when one is given, and otherwise
      the band `bandForFrequency` finds for `qso.freq`. */
  lemma BandRule(rec: Record, host: Host)
    requires NormaliseRecord(rec, host).Some?
    ensures var q := NormaliseRecord(rec, host).value;
      q.freq == ParseFrequency(Get(rec, "freq"), host.mhzToKhz) &&
      (Truthy(rec, "band") ==> q.band == Some(ToLowerCase(rec["band"]))) &&
      (!Truthy(rec, "band") ==> q.band == host.bandFor(q.freq))
  {
  }

  /** Lines 69-71: the operator and station call of "our" side and the call of "their"
      side are copied when given; no later step writes them. */
  lemma Calls(rec: Record, host: Host)
    requires NormaliseRecord(rec, host).Some?
    ensures var q := NormaliseRecord(rec, host).value;
      (Truthy(rec, "call") <==> "call" in q.their) &&
      (Truthy(rec, "call") ==> q.their["call"] == Text(rec["call"])) &&
      (Truthy(rec, "station_callsign") <==> "call" in q.our) &&
      (Truthy(rec, "station_callsign") ==> q.our["call"] == Text(rec["station_callsign"])) &&
      (Truthy(rec, "operator") <==> "operator" in q.our) &&
      (Truthy(rec, "operator") ==> q.our["operator"] == Text(rec["operator"]))
  {
    TheirCall(rec, host);
    OurCalls(rec);
  }

  lemma TheirCall(rec: Record, host: Host)
    ensures var st := TheirFields(rec, host);
      (Truthy(rec, "call") <==> "call" in st) && (Truthy(rec, "call") ==> st["call"] == Text(rec["call"]))
  {
    var head := ApplyRules(rec, map[], TheirHeadRules);
    SingleTextRow(rec, map[], TheirHeadRules, "call", 0, "call");
    TheirCallUnwritten();
    Untouched(rec, WithReceiveFrequency(rec, head, host), TheirRules, "call");
  }

  lemma OurCalls(rec: Record)
    ensures var st := OurFields(rec);
      (Truthy(rec, "station_callsign") <==> "call" in st) &&
      (Truthy(rec, "station_callsign") ==> st["call"] == Text(rec["station_callsign"])) &&
      (Truthy(rec, "operator") <==> "operator" in st) &&
      (Truthy(rec, "operator") ==> st["operator"] == Text(rec["operator"]))
  {
    var head := ApplyRules(rec, map[], OurHeadRules);
    assert OnlyRowsFor(OurHeadRules, "call", {1});
    SingleTextRow(rec, map[], OurHeadRules, "call", 1, "station_callsign");
    assert OnlyRowsFor(OurHeadRules, "operator", {0});
    SingleTextRow(rec, map[], OurHeadRules, "operator", 0, "operator");
    OurCallUnwritten();
    Untouched(rec, head, OurRules, "call");
    OperatorUnwritten();
    Untouched(rec, head, OurRules, "operator");
  }

  /** Lines 76-79: with a receive frequency, "their" station carries it as
      `parseFrequency` gives it, and its band is the `band_rx` tag as written (not
      lower-cased), else the band of that frequency; without one neither is set. */
  lemma ReceiveBand(rec: Record, host: Host)
    requires NormaliseRecord(rec, host).Some?
    ensures var q := NormaliseRecord(rec, host).value;
      var rx := ParseFrequency(Get(rec, "freq_rx"), host.mhzToKhz);
      (Truthy(rec, "freq_rx") ==>
         "freq" in q.their && q.their["freq"] == FreqValue(rx) && "band" in q.their &&
         q.their["band"] == if Truthy(rec, "band_rx") then Text(rec["band_rx"]) else BandValue(host.bandFor(rx))) &&
      (!Truthy(rec, "freq_rx") ==> "freq" !in q.their && "band" !in q.their)
  {
    var their := TheirFields(rec, host);
    ReceiveFields(rec, host);
    assert NormaliseRecord(rec, host).value.their == if Truthy(rec, "contest_id") then AppendExchange(rec, their, "srx") else their;
  }

  /** The receive frequency and band of "their" station before the contest block. */
  lemma ReceiveFields(rec: Record, host: Host)
    ensures var st := TheirFields(rec, host);
      var rx := ParseFrequency(Get(rec, "freq_rx"), host.mhzToKhz);
      (Truthy(rec, "freq_rx") ==>
         "freq" in st && st["freq"] == FreqValue(rx) && "band" in st &&
         st["band"] == if Truthy(rec, "band_rx") then Text(rec["band_rx"]) else BandValue(host.bandFor(rx))) &&
      (!Truthy(rec, "freq_rx") ==> "freq" !in st && "band" !in st)
  {
    var theirHead := ApplyRules(rec, map[], TheirHeadRules);
    assert OnlyRowsFor(TheirHeadRules, "freq", {}) && OnlyRowsFor(TheirHeadRules, "band", {});
    Untouched(rec, map[], TheirHeadRules, "freq");
    Untouched(rec, map[], TheirHeadRules, "band");
    FreqUnwritten();
    BandUnwritten();
    Untouched(rec, WithReceiveFrequency(rec, theirHead, host), TheirRules, "freq");
    Untouched(rec, WithReceiveFrequency(rec, theirHead, host), TheirRules, "band");
  }

  /** The summary of a non-empty list of sources: `received` is set exactly when one of
      them carries a date, and with well-formed dates it is the first source holding the
      smallest instant. */
  lemma SummaryOfSources(sources: seq<Source>, parse: string -> Num)
    requires sources != []
    ensures var s := Summarise(sources, parse).value;
      s.sources == sources &&
      (s.received.Some? <==> exists i :: 0 <= i < |sources| && Dated(sources[i])) &&
      (WellDated(sources, parse) && s.received.Some? ==>
         exists k: nat :: FirstEarliest(sources, parse, k) &&
           s.received == Some(sources[k]["received"]) &&
           s.receivedMillis == Some(parse(sources[k]["received"])))
  {
    ReceivedIffDated(sources, parse);
    if WellDated(sources, parse) && EarliestOf(sources, parse).received.Some? {
      var k := FirstMinimumIndex(sources, parse);
    }
  }

  /** The QSL summary of a kept record: its sources in channel order, and `received`
      set exactly when one of them carries a date; with well-formed dates it is the first
      source holding the smallest instant. */
  lemma QslOfRecord(rec: Record, host: Host)
    requires NormaliseRecord(rec, host).Some? && NormaliseRecord(rec, host).value.qsl.Some?
    ensures var s := NormaliseRecord(rec, host).value.qsl.value;
      Vias(s.sources) == FiredChannels(rec) &&
      (s.received.Some? <==> exists i :: 0 <= i < |s.sources| && Dated(s.sources[i])) &&
      (WellDated(s.sources, host.parse) && s.received.Some? ==>
         exists k: nat :: FirstEarliest(s.sources, host.parse, k) &&
           s.received == Some(s.sources[k]["received"]) &&
           s.receivedMillis == Some(host.parse(s.sources[k]["received"])))
  {
    var sources := QslSources(rec).value;
    assert NormaliseRecord(rec, host).value.qsl == Summarise(sources, host.parse);
    SummaryOfSources(sources, host.parse);
  }

  /** Lines 240-245: "their" county is `cleanupCounty` of the record's `country`; without
      one, `qso.their.country` is undefined and the county gets the `??/` prefix. */
  lemma TheirCounty(rec: Record, host: Host)
    requires Truthy(rec, "cnty")
    ensures var st := TheirFields(rec, host);
      var country := if Truthy(rec, "country") then Some(rec["country"]) else None;
      "county" in st && st["county"] == Text(CleanupCounty(country, rec["cnty"]))
  {
    var head := ApplyRules(rec, map[], TheirHeadRules);
    assert OnlyRowsFor(TheirHeadRules, "country", {});
    Untouched(rec, map[], TheirHeadRules, "country");
    TheirCountyUsesCountry(rec, WithReceiveFrequency(rec, head, host));
  }

  /** Lines 260-265: "our" county is `cleanupCounty` of the record's `my_country`, and
      gets the `??/` prefix without one. */
  lemma OurCounty(rec: Record)
    requires Truthy(rec, "my_cnty")
    ensures var st := OurFields(rec);
      var country := if Truthy(rec, "my_country") then Some(rec["my_country"]) else None;
      "county" in st && st["county"] == Text(CleanupCounty(country, rec["my_cnty"]))
  {
    assert OnlyRowsFor(OurHeadRules, "country", {});
    Untouched(rec, map[], OurHeadRules, "country");
    OurCountyUsesCountry(rec, ApplyRules(rec, map[], OurHeadRules));
  }

  /** "their" station holds no `sent` until the `rst_rcvd` row, which writes it as text. */
  lemma TheirSentBeforeContest(rec: Record, host: Host)
    ensures var st := TheirFields(rec, host);
      SentText(st) == if Truthy(rec, "rst_rcvd") then rec["rst_rcvd"] else "undefined"
  {
    var head := ApplyRules(rec, map[], TheirHeadRules);
    assert OnlyRowsFor(TheirHeadRules, "sent", {});
    Untouched(rec, map[], TheirHeadRules, "sent");
    TheirSentRow();
    SingleTextRow(rec, WithReceiveFrequency(rec, head, host), TheirRules, "sent", 7, "rst_rcvd");
  }

  /** "our" station holds no `sent` until the `my_rst_sent` row, which writes it as text. */
  lemma OurSentBeforeContest(rec: Record)
    ensures var st := OurFields(rec);
      SentText(st) == if Truthy(rec, "my_rst_sent") then rec["my_rst_sent"] else "undefined"
  {
    var head := ApplyRules(rec, map[], OurHeadRules);
    assert OnlyRowsFor(OurHeadRules, "sent", {});
    Untouched(rec, map[], OurHeadRules, "sent");
    OurSentRow();
    SingleTextRow(rec, head, OurRules, "sent", 7, "my_rst_sent");
  }

  /** Lines 279-288: a contest id adds exactly one contest reference, and the received
      and sent serials follow the signal reports after one space, with `"undefined"` in
      place of a report that was never set. Without a contest id nothing is added, a
      missing serial leaves its station as it was, and no key but `sent` changes. */
  lemma ContestExchange(rec: Record, host: Host)
    requires NormaliseRecord(rec, host).Some?
    ensures var q := NormaliseRecord(rec, host).value;
      var theirRst := if Truthy(rec, "rst_rcvd") then rec["rst_rcvd"] else "undefined";
      var ourRst := if Truthy(rec, "my_rst_sent") then rec["my_rst_sent"] else "undefined";
      (Truthy(rec, "contest_id") ==> q.refs == Some([Ref("contest", rec["contest_id"])])) &&
      (Truthy(rec, "contest_id") && Truthy(rec, "srx") ==> q.their["sent"] == Text(theirRst + " " + rec["srx"])) &&
      (Truthy(rec, "contest_id") && Truthy(rec, "stx") ==> q.our["sent"] == Text(ourRst + " " + rec["stx"])) &&
      (!Truthy(rec, "contest_id") ==> q.refs.None? && q.their == TheirFields(rec, host) && q.our == OurFields(rec))
    ensures var q := NormaliseRecord(rec, host).value;
      (!Truthy(rec, "srx") ==> q.their == TheirFields(rec, host)) &&
      (!Truthy(rec, "stx") ==> q.our == OurFields(rec)) &&
      (forall k :: k != "sent" ==> (k in q.their <==> k in TheirFields(rec, host))) &&
      (forall k :: k != "sent" && k in q.their ==> q.their[k] == TheirFields(rec, host)[k]) &&
      (forall k :: k != "sent" ==> (k in q.our <==> k in OurFields(rec))) &&
      (forall k :: k != "sent" && k in q.our ==> q.our[k] == OurFields(rec)[k])
  {
    TheirSentBeforeContest(rec, host);
    OurSentBeforeContest(rec);
  }
}
