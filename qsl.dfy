/** Lines 144-235 of `parseAdifQSO`: confirmation ("QSL") sources collected from five tag
    conventions in a fixed order, then the earliest `received` among them. A source is
    the object `{via, id?, received?, sent?}` that the code builds and pushes. */
module Qsl {
  import opened Js
  import opened Adif
  import opened Fields
  import opened Timestamps

  /** A QSL source object. */
  type Source = map<string, string>

  /** The conversion of a `condSet` call without `f`. */
  function Verbatim(x: string): string { x }

  /** `s.replace(/(\d+) (\d+):/, "$1T$2:")` replaces the space of the leftmost match by
      a `T`. A match starting at `i` needs the whole digit run from `i` to end at a space
      (a shorter run is followed by a digit), then a digit run ending at a colon; so the
      leftmost match's space is the first space that is preceded by a digit and followed
      by digits and a colon. */
  predicate JoinsDateAndTime(s: string, j: nat)
  {
    0 < j < |s| && s[j] == ' ' && IsDigit(s[j - 1]) &&
    var run := DigitPrefix(s[j + 1..]);
    run != "" && j + 1 + |run| < |s| && s[j + 1 + |run|] == ':'
  }

  /** The first such space at or after `from`. */
  function FirstJoin(s: string, from: nat): (r: Option<nat>)
    ensures r.Some? ==> from <= r.value && JoinsDateAndTime(s, r.value)
    ensures r.Some? ==> forall j :: from <= j < r.value ==> !JoinsDateAndTime(s, j)
    ensures r.None? ==> forall j :: from <= j < |s| ==> !JoinsDateAndTime(s, j)
    decreases |s| - from
  {
    if from >= |s| then None
    else if JoinsDateAndTime(s, from) then Some(from)
    else FirstJoin(s, from + 1)
  }

  /** `x.replace(/(\d+) (\d+):/, "$1T$2:") + "Z"` (lines 199-200). */
  function LotwStamp(x: string): string
  {
    match FirstJoin(x, 0)
    case None => x + "Z"
    case Some(j) => x[..j] + "T" + x[j + 1..] + "Z"
  }

  /** A date without spaces that ends in a digit, a space, then a time `HH:...`: the
      space becomes the `T` of an ISO 8601 instant, so LoTW's `YYYY-MM-DD HH:MM:SS` becomes
      `YYYY-MM-DDTHH:MM:SSZ`. */
  lemma LotwStampOfDateTime(date: string, time: string)
    requires date != "" && IsDigit(date[|date| - 1]) && forall i :: 0 <= i < |date| ==> date[i] != ' '
    requires |time| >= 3 && IsDigit(time[0]) && IsDigit(time[1]) && time[2] == ':'
    ensures LotwStamp(date + " " + time) == date + "T" + time + "Z"
  {
    var s := date + " " + time;
    var j := |date|;
    assert s[j + 1..] == time;
    assert DigitPrefix(time) == time[..2] by {
      assert time[..2] == [time[0]] + [time[1]];
      assert DigitPrefix(time[2..]) == "";
      assert time[1..][1..] == time[2..];
    }
    assert JoinsDateAndTime(s, j);
    assert forall i :: 0 <= i < j ==> s[i] == date[i];
    assert FirstJoin(s, 0) == Some(j);
    assert s[..j] == date;
  }

  /** An input that gives the stamp expected at src/lib/qson-adif.spec.js:30: the text
      `2021-07-06 12:59:09` becomes `2021-07-06T12:59:09Z`. The date and time are
      parameters so that the verifier does not unfold the search on a literal. */
  lemma LotwStampExample(date: string, time: string)
    requires date == "2021-07-06" && time == "12:59:09"
    ensures LotwStamp(date + " " + time) == date + "T" + time + "Z"
  {
    assert date != "" && IsDigit(date[|date| - 1]) && forall i :: 0 <= i < |date| ==> date[i] != ' ' by {}
    assert |time| >= 3 && IsDigit(time[0]) && IsDigit(time[1]) && time[2] == ':' by {}
    LotwStampOfDateTime(date, time);
  }

  /** The value a `condSet` call would write for `tag`, when the tag is given. */
  function Given(rec: Record, tag: string, f: string -> string): (r: Option<string>)
    ensures r.Some? <==> Truthy(rec, tag)
    ensures r.Some? ==> r.value == f(rec[tag])
  {
    if Truthy(rec, tag) then Some(f(rec[tag])) else None
  }

  /** The keys an optional member adds to a source object. */
  function KeyIf(key: string, v: Option<string>): set<string>
  {
    if v.Some? then {key} else {}
  }

  /** A source object `{via, id?, received?, sent?}` with exactly these members. */
  predicate Shaped(s: Source, via: string, id: Option<string>, received: Option<string>, sent: Option<string>)
  {
    s.Keys == {"via"} + KeyIf("id", id) + KeyIf("received", received) + KeyIf("sent", sent) &&
    s["via"] == via &&
    (id.Some? ==> s["id"] == id.value) &&
    (received.Some? ==> s["received"] == received.value) &&
    (sent.Some? ==> s["sent"] == sent.value)
  }

  /** Lines 144-156: QRZ's confirmation date as the end of that day, with its log id
      when given, and no sent date. */
  function QrzSource(rec: Record): seq<Source>
  {
    if Truthy(rec, "app_qrzlog_qsldate") then
      var data := CondSet(rec, map["via" := "qrz"], "app_qrzlog_logid", "id", Verbatim);
      [data["received" := DayEnd(rec["app_qrzlog_qsldate"])]]
    else []
  }

  /** Lines 158-178: LoTW's received date and, when given, its sent date, each as the
      end of that day. */
  function LotwSource(rec: Record): seq<Source>
  {
    if Truthy(rec, "lotw_qslrdate") then
      var data := map["via" := "lotw", "received" := DayEnd(rec["lotw_qslrdate"])];
      [if Truthy(rec, "lotw_qslsdate") then data["sent" := DayEnd(rec["lotw_qslsdate"])] else data]
    else []
  }

  /** Lines 180-193: eQSL. The date is gated on the tag `eqsl_sql_rdate` but read from
      `eqsl_qsl_rdate`; when the gate is present and the read tag is absent, `substr` is
      called on `undefined` and throws. A correctly spelled `eqsl_qsl_rdate` on its own
      gives a source with no date. */
  function EqslSource(rec: Record): (r: Outcome<seq<Source>>)
    ensures r.Thrown? <==> EqslDateMissing(rec)
    ensures !FieldIs(rec, "eqsl_qsl_rcvd", "Y") ==> r == Ok([])
  {
    if FieldIs(rec, "eqsl_qsl_rcvd", "Y") then
      if Truthy(rec, "eqsl_sql_rdate") then
        if "eqsl_qsl_rdate" in rec then Ok([map["via" := "eqsl", "received" := DayEnd(rec["eqsl_qsl_rdate"])]])
        else Thrown
      else Ok([map["via" := "eqsl"]])
    else Ok([])
  }

  predicate EqslDateMissing(rec: Record)
  {
    FieldIs(rec, "eqsl_qsl_rcvd", "Y") && Truthy(rec, "eqsl_sql_rdate") && "eqsl_qsl_rdate" !in rec
  }

  /** Lines 195-202: the LoTW fields of other programs, date and time joined by a space;
      the received and sent stamps get their `T` and `Z`. */
  function LotwAppSource(rec: Record): seq<Source>
  {
    if Truthy(rec, "app_lotw_rxqsl") then
      var data := CondSet(rec, map["via" := "lotw"], "app_lotw_rxqsl", "received", LotwStamp);
      [CondSet(rec, data, "app_lotw_rxqso", "sent", LotwStamp)]
    else []
  }

  /** Lines 204-223: a paper card, with its received and sent dates, each as the end of
      that day, when given. */
  function CardSource(rec: Record): seq<Source>
  {
    if FieldIs(rec, "qsl_rcvd", "Y") then
      var data := CondSet(rec, map["via" := "card"], "qslrdate", "received", DayEnd);
      [CondSet(rec, data, "qslsdate", "sent", DayEnd)]
    else []
  }

  /** QRZ pushes one source exactly when it has a confirmation date: `received` is the
      end of that day, `id` the log id when given, and there is no `sent`. */
  lemma QrzSourceShape(rec: Record)
    ensures |QrzSource(rec)| == if Truthy(rec, "app_qrzlog_qsldate") then 1 else 0
    ensures QrzSource(rec) != [] ==>
      Shaped(QrzSource(rec)[0], "qrz", Given(rec, "app_qrzlog_logid", Verbatim), Some(DayEnd(rec["app_qrzlog_qsldate"])), None)
  {
  }

  /** With "Y", eQSL pushes one source, whose `received` is the end of the
      `eqsl_qsl_rdate` day exactly when the misspelled `eqsl_sql_rdate` is given. */
  lemma EqslSourceShape(rec: Record)
    requires EqslSource(rec).Ok? && FieldIs(rec, "eqsl_qsl_rcvd", "Y")
    ensures var r := EqslSource(rec).value;
      |r| == 1 &&
      (Truthy(rec, "eqsl_sql_rdate") ==> "eqsl_qsl_rdate" in rec) &&
      Shaped(r[0], "eqsl", None,
             if Truthy(rec, "eqsl_sql_rdate") then Some(DayEnd(rec["eqsl_qsl_rdate"])) else None, None)
  {
  }

  /** LoTW pushes one source exactly when it has a received date, with `received` and,
      when given, `sent` at the end of their days. */
  lemma LotwSourceShape(rec: Record)
    ensures |LotwSource(rec)| == if Truthy(rec, "lotw_qslrdate") then 1 else 0
    ensures LotwSource(rec) != [] ==>
      Shaped(LotwSource(rec)[0], "lotw", None, Some(DayEnd(rec["lotw_qslrdate"])), Given(rec, "lotw_qslsdate", DayEnd))
  {
  }

  /** The LoTW fields of other programs push one source exactly when a received stamp
      is given; `received` and, when given, `sent` are LoTW stamps. */
  lemma LotwAppSourceShape(rec: Record)
    ensures |LotwAppSource(rec)| == if Truthy(rec, "app_lotw_rxqsl") then 1 else 0
    ensures LotwAppSource(rec) != [] ==>
      Shaped(LotwAppSource(rec)[0], "lotw", None, Some(LotwStamp(rec["app_lotw_rxqsl"])), Given(rec, "app_lotw_rxqso", LotwStamp))
  {
  }

  /** A received paper card pushes one source, with `received` and `sent` at the end of
      their days when given. */
  lemma CardSourceShape(rec: Record)
    ensures |CardSource(rec)| == if FieldIs(rec, "qsl_rcvd", "Y") then 1 else 0
    ensures CardSource(rec) != [] ==>
      Shaped(CardSource(rec)[0], "card", None, Given(rec, "qslrdate", DayEnd), Given(rec, "qslsdate", DayEnd))
  {
  }

  /** The channels that fire for a record, in the order lines 144-223 test them. */
  function FiredChannels(rec: Record): seq<string>
  {
    (if Truthy(rec, "app_qrzlog_qsldate") then ["qrz"] else []) +
    (if Truthy(rec, "lotw_qslrdate") then ["lotw"] else []) +
    (if FieldIs(rec, "eqsl_qsl_rcvd", "Y") then ["eqsl"] else []) +
    (if Truthy(rec, "app_lotw_rxqsl") then ["lotw"] else []) +
    (if FieldIs(rec, "qsl_rcvd", "Y") then ["card"] else [])
  }

  /** `source.via`, or the empty string for an object without one. */
  function ViaOf(s: Source): string { if "via" in s then s["via"] else "" }

  function Vias(sources: seq<Source>): (vs: seq<string>)
    ensures |vs| == |sources|
  {
    seq(|sources|, i requires 0 <= i < |sources| => ViaOf(sources[i]))
  }

  /** Every channel pushes at most one source, tagged with its own name. */
  lemma ChannelVias(rec: Record, eqsl: seq<Source>)
    requires EqslSource(rec) == Ok(eqsl)
    ensures Vias(QrzSource(rec)) == if Truthy(rec, "app_qrzlog_qsldate") then ["qrz"] else []
    ensures Vias(LotwSource(rec)) == if Truthy(rec, "lotw_qslrdate") then ["lotw"] else []
    ensures Vias(eqsl) == if FieldIs(rec, "eqsl_qsl_rcvd", "Y") then ["eqsl"] else []
    ensures Vias(LotwAppSource(rec)) == if Truthy(rec, "app_lotw_rxqsl") then ["lotw"] else []
    ensures Vias(CardSource(rec)) == if FieldIs(rec, "qsl_rcvd", "Y") then ["card"] else []
  {
  }

  /** The sources of all five channels, first channel first. */
  lemma AllVias(a: seq<Source>, b: seq<Source>, c: seq<Source>, d: seq<Source>, e: seq<Source>)
    ensures Vias(a + b + c + d + e) == Vias(a) + Vias(b) + Vias(c) + Vias(d) + Vias(e)
  {
  }

  /** `qso.qsl.sources` as it stands after line 223. */
  function QslSources(rec: Record): (r: Outcome<seq<Source>>)
    ensures r.Thrown? <==> EqslDateMissing(rec)
    ensures r.Ok? ==> Vias(r.value) == FiredChannels(rec)
  {
    match EqslSource(rec)
    case Thrown => Thrown
    case Ok(eqsl) =>
      ChannelVias(rec, eqsl);
      AllVias(QrzSource(rec), LotwSource(rec), eqsl, LotwAppSource(rec), CardSource(rec));
      Ok(QrzSource(rec) + LotwSource(rec) + eqsl + LotwAppSource(rec) + CardSource(rec))
  }

  /** `qso.qsl.received` and `qso.qsl.receivedMillis` while the loop of lines 226-234 runs. */
  datatype Earliest = Earliest(received: Option<string>, millis: Option<Num>)

  /** `!qso.qsl.receivedMillis`: undefined, NaN and 0 are all falsy. */
  predicate Unset(m: Option<Num>) { m.None? || m.value == NaN || m.value == Finite(0) }

  /** `millis < qso.qsl.receivedMillis`: false whenever either side is NaN or undefined. */
  predicate Below(x: Num, m: Option<Num>) { x.Finite? && m.Some? && m.value.Finite? && x.n < m.value.n }

  /** `if (s.received)`. */
  predicate Dated(s: Source) { "received" in s && s["received"] != "" }

  /** One turn of the loop. */
  function Step(acc: Earliest, s: Source, parse: string -> Num): Earliest
  {
    if Dated(s) then
      var millis := parse(s["received"]);
      if Unset(acc.millis) || Below(millis, acc.millis) then Earliest(Some(s["received"]), Some(millis)) else acc
    else acc
  }

  /** The loop's result over a list of sources, as a function of the list. */
  function EarliestOf(sources: seq<Source>, parse: string -> Num): Earliest
  {
    if sources == [] then Earliest(None, None)
    else Step(EarliestOf(sources[..|sources| - 1], parse), sources[|sources| - 1], parse)
  }

  /** The `forEach` of lines 226-234. */
  method PickEarliest(sources: seq<Source>, parse: string -> Num) returns (received: Option<string>, millis: Option<Num>)
    ensures Earliest(received, millis) == EarliestOf(sources, parse)
  {
    received, millis := None, None;
    var i := 0;
    while i < |sources|
      invariant 0 <= i <= |sources|
      invariant Earliest(received, millis) == EarliestOf(sources[..i], parse)
    {
      var s := sources[i];
      if "received" in s && s["received"] != "" {
        var m := parse(s["received"]);
        if Unset(millis) || Below(m, millis) {
          received, millis := Some(s["received"]), Some(m);
        }
      }
      assert sources[..i + 1][..i] == sources[..i];
      i := i + 1;
    }
    assert sources[..|sources|] == sources;
  }

  /** `qso.qsl.received` is set exactly when some source carries a received date, whatever
      `Date.parse` makes of it, and `receivedMillis` is set along with it. */
  lemma {:induction false} ReceivedIffDated(sources: seq<Source>, parse: string -> Num)
    ensures EarliestOf(sources, parse).received.Some? <==> exists i :: 0 <= i < |sources| && Dated(sources[i])
    ensures EarliestOf(sources, parse).received.Some? <==> EarliestOf(sources, parse).millis.Some?
  {
    if sources != [] {
      var n := |sources| - 1;
      var init := sources[..n];
      ReceivedIffDated(init, parse);
      if Dated(sources[n]) {
        assert EarliestOf(sources, parse).received.Some?;
      } else {
        assert EarliestOf(sources, parse) == EarliestOf(init, parse);
        assert forall i :: 0 <= i < n ==> init[i] == sources[i];
      }
    }
  }

  /** The instant `Date.parse` gives source `i`'s received date (0 when it is NaN). */
  function MillisAt(sources: seq<Source>, parse: string -> Num, i: nat): int
    requires i < |sources| && Dated(sources[i])
  {
    match parse(sources[i]["received"])
    case Finite(n) => n
    case NaN => 0
  }

  /** Every received date parses to a number other than 0 (`Date.parse` gives NaN for text
      it cannot read, and 0 is the one instant the falsy test cannot tell from "unset"). */
  predicate WellDated(sources: seq<Source>, parse: string -> Num)
  {
    forall i :: 0 <= i < |sources| && Dated(sources[i]) ==>
      parse(sources[i]["received"]).Finite? && parse(sources[i]["received"]) != Finite(0)
  }

  /** Source `k` holds the smallest received instant, and is the first one that does. */
  predicate FirstEarliest(sources: seq<Source>, parse: string -> Num, k: nat)
  {
    k < |sources| && Dated(sources[k]) &&
    (forall j :: 0 <= j < |sources| && Dated(sources[j]) ==> MillisAt(sources, parse, k) <= MillisAt(sources, parse, j)) &&
    (forall j :: 0 <= j < k && Dated(sources[j]) ==> MillisAt(sources, parse, k) < MillisAt(sources, parse, j))
  }

  /** A later source that is not strictly earlier leaves the first earliest in place. */
  lemma FirstEarliestKept(sources: seq<Source>, parse: string -> Num, k: nat)
    requires |sources| > 0 && FirstEarliest(sources[..|sources| - 1], parse, k)
    requires Dated(sources[|sources| - 1]) ==> MillisAt(sources, parse, k) <= MillisAt(sources, parse, |sources| - 1)
    ensures FirstEarliest(sources, parse, k)
  {
    var init := sources[..|sources| - 1];
    assert forall i :: 0 <= i < |init| ==> init[i] == sources[i];
    assert forall i :: 0 <= i < |init| && Dated(init[i]) ==> MillisAt(init, parse, i) == MillisAt(sources, parse, i);
  }

  /** A later source that is strictly earlier than all before it becomes the first earliest. */
  lemma FirstEarliestReplaced(sources: seq<Source>, parse: string -> Num, k: nat)
    requires |sources| > 0 && FirstEarliest(sources[..|sources| - 1], parse, k)
    requires Dated(sources[|sources| - 1]) && MillisAt(sources, parse, |sources| - 1) < MillisAt(sources, parse, k)
    ensures FirstEarliest(sources, parse, |sources| - 1)
  {
    var init := sources[..|sources| - 1];
    assert forall i :: 0 <= i < |init| ==> init[i] == sources[i];
    assert forall i :: 0 <= i < |init| && Dated(init[i]) ==> MillisAt(init, parse, i) == MillisAt(sources, parse, i);
  }

  /** The first dated source is the first earliest of the sources up to it. */
  lemma FirstEarliestAlone(sources: seq<Source>, parse: string -> Num)
    requires |sources| > 0 && Dated(sources[|sources| - 1])
    requires forall j :: 0 <= j < |sources| - 1 ==> !Dated(sources[j])
    ensures FirstEarliest(sources, parse, |sources| - 1)
  {
  }

  /** The loop's result is source `k`'s received text and instant. */
  predicate PicksSource(sources: seq<Source>, parse: string -> Num, k: nat)
    requires k < |sources| && Dated(sources[k])
  {
    EarliestOf(sources, parse) == Earliest(Some(sources[k]["received"]), Some(parse(sources[k]["received"])))
  }

  /** One more source after a first earliest `k` that the loop has picked: either the new
      source is strictly earlier and is picked, or `k` stays picked. */
  lemma EarliestStep(sources: seq<Source>, parse: string -> Num, k: nat) returns (k': nat)
    requires |sources| > 0 && WellDated(sources, parse)
    requires FirstEarliest(sources[..|sources| - 1], parse, k) && PicksSource(sources[..|sources| - 1], parse, k)
    ensures FirstEarliest(sources, parse, k') && PicksSource(sources, parse, k')
  {
    var n := |sources| - 1;
    var init := sources[..n];
    assert init[k] == sources[k];
    assert EarliestOf(sources, parse) == Step(EarliestOf(init, parse), sources[n], parse);
    if Dated(sources[n]) && MillisAt(sources, parse, n) < MillisAt(sources, parse, k) {
      FirstEarliestReplaced(sources, parse, k);
      k' := n;
    } else {
      FirstEarliestKept(sources, parse, k);
      k' := k;
    }
  }

  /** The index of the first source holding the smallest instant, which the loop picks. */
  lemma {:induction false} FirstMinimumIndex(sources: seq<Source>, parse: string -> Num) returns (k: nat)
    requires WellDated(sources, parse)
    requires exists j :: 0 <= j < |sources| && Dated(sources[j])
    ensures k < |sources| && Dated(sources[k])
    ensures FirstEarliest(sources, parse, k) && PicksSource(sources, parse, k)
  {
    var n := |sources| - 1;
    var init := sources[..n];
    assert forall i :: 0 <= i < n ==> init[i] == sources[i];
    if exists j :: 0 <= j < n && Dated(init[j]) {
      assert WellDated(init, parse);
      var k0 := FirstMinimumIndex(init, parse);
      k := EarliestStep(sources, parse, k0);
    } else {
      FirstEarliestAlone(sources, parse);
      ReceivedIffDated(init, parse);
      assert EarliestOf(sources, parse) == Step(EarliestOf(init, parse), sources[n], parse);
      k := n;
    }
  }

  /** With well-formed dates, the loop leaves `qsl.received` at the received text of the
      first source with the smallest instant, and `receivedMillis` at that instant; with
      no received date at all both stay unset. */
  lemma EarliestIsFirstMinimum(sources: seq<Source>, parse: string -> Num)
    requires WellDated(sources, parse)
    ensures (forall j :: 0 <= j < |sources| ==> !Dated(sources[j])) ==> EarliestOf(sources, parse) == Earliest(None, None)
    ensures (exists j :: 0 <= j < |sources| && Dated(sources[j])) ==>
      exists k: nat :: k < |sources| && Dated(sources[k]) && FirstEarliest(sources, parse, k) && PicksSource(sources, parse, k)
  {
    ReceivedIffDated(sources, parse);
    if exists j :: 0 <= j < |sources| && Dated(sources[j]) {
      var k := FirstMinimumIndex(sources, parse);
    }
  }
}
