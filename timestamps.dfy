/** Lines 83-142 of `parseAdifQSO`: the start and end of a contact rebuilt as
    `YYYY-MM-DDTHH:MM:SSZ` text from the ADIF Date (`YYYYMMDD`) and Time (`HHMM` or
    `HHMMSS`) fields, their epoch milliseconds by `Date.parse`, and each bound mirrored
    into the other when only one is known. `Date.parse` is the parameter `parse`. */
module Timestamps {
  import opened Js
  import opened Adif

  /** `[d.substr(0, 4), d.substr(4, 2), d.substr(6, 2)].join("-")`. */
  function DateText(d: string): string
  {
    Substr(d, 0, 4) + "-" + Substr(d, 4, 2) + "-" + Substr(d, 6, 2)
  }

  /** `[t.substr(0, 2) || "00", t.substr(2, 2) || "00", t.substr(4, 2) || "00"].join(":")`. */
  function ClockText(t: string): string
  {
    OrElse(Substr(t, 0, 2), "00") + ":" + OrElse(Substr(t, 2, 2), "00") + ":" + OrElse(Substr(t, 4, 2), "00")
  }

  /** A QSL date with no time: the end of that day (lines 154, 168, 175, 190, 213, 220). */
  function DayEnd(d: string): string
  {
    DateText(d) + "T23:59:59Z"
  }

  /** The start text of lines 83-99, when `qso_date` is truthy. */
  function StartText(rec: Record): string
    requires Truthy(rec, "qso_date")
  {
    DateText(rec["qso_date"]) +
      (if Truthy(rec, "time_on") then "T" + ClockText(rec["time_on"]) + "Z" else "T00:00:00Z")
  }

  /** `qso.start`, `qso.startMillis`, `qso.end` and `qso.endMillis` once line 142 is reached. */
  datatype Bounds = Bounds(start: Option<string>, startMillis: Option<Num>,
                           end: Option<string>, endMillis: Option<Num>)

  /** The mirroring of lines 135-142. */
  function Mirror(start: Option<string>, end: Option<string>, parse: string -> Num): Bounds
  {
    var startMillis := if start.Some? then Some(parse(start.value)) else None;
    var endMillis := if end.Some? then Some(parse(end.value)) else None;
    if end.None? && start.Some? then Bounds(start, startMillis, start, startMillis)
    else if start.None? && end.Some? then Bounds(end, endMillis, end, endMillis)
    else Bounds(start, startMillis, end, endMillis)
  }

  /** A `time_off` with no date at all reads `qso.start.substr` while `qso.start` is
      undefined and throws. Otherwise both bounds are known exactly when a date is, each
      carries the milliseconds of its own text, and a single given bound is copied. */
  function ReconstructBounds(rec: Record, parse: string -> Num): (r: Outcome<Bounds>)
    ensures r.Thrown? <==> Truthy(rec, "time_off") && !Truthy(rec, "qso_date") && !Truthy(rec, "qso_date_off")
    ensures r.Ok? ==> (r.value.start.Some? <==> r.value.end.Some?)
    ensures r.Ok? ==> (r.value.start.Some? <==> Truthy(rec, "qso_date") || Truthy(rec, "qso_date_off"))
    ensures r.Ok? && r.value.start.Some? ==>
              r.value.startMillis == Some(parse(r.value.start.value)) &&
              r.value.endMillis == Some(parse(r.value.end.value))
    ensures r.Ok? && r.value.start.None? ==> r.value.startMillis.None? && r.value.endMillis.None?
    ensures Truthy(rec, "qso_date") ==> r.Ok? && r.value.start == Some(StartText(rec))
    ensures Truthy(rec, "qso_date") && !Truthy(rec, "qso_date_off") && !Truthy(rec, "time_off") ==>
              r.Ok? && r.value.end == r.value.start && r.value.endMillis == r.value.startMillis
    ensures !Truthy(rec, "qso_date") && Truthy(rec, "qso_date_off") ==>
              r.Ok? && r.value.start == r.value.end && r.value.startMillis == r.value.endMillis
    ensures Truthy(rec, "qso_date_off") && Truthy(rec, "time_off") ==>
              r.Ok? && r.value.end == Some(DateText(rec["qso_date_off"]) + "T" + ClockText(rec["time_off"]) + "Z")
  {
    var start := if Truthy(rec, "qso_date") then Some(StartText(rec)) else None;
    if Truthy(rec, "qso_date_off") then
      var end := DateText(rec["qso_date_off"]) +
        (if Truthy(rec, "time_off") then "T" + ClockText(rec["time_off"]) + "Z" else " 00:00:00Z");
      assert Truthy(rec, "time_off") ==>
        end == DateText(rec["qso_date_off"]) + "T" + ClockText(rec["time_off"]) + "Z";
      Ok(Mirror(start, Some(end), parse))
    else if Truthy(rec, "time_off") then
      if start.None? then Thrown
      else Ok(Mirror(start, Some(Substr(start.value, 0, 10) + "T" + ClockText(rec["time_off"]) + "Z"), parse))
    else Ok(Mirror(start, None, parse))
  }

  /** An eight-character ADIF Date becomes `YYYY-MM-DD`. */
  lemma DateTextOfAdifDate(d: string)
    requires |d| == 8
    ensures DateText(d) == d[..4] + "-" + d[4..6] + "-" + d[6..]
  {
  }

  /** A four- or six-character ADIF Time becomes `HH:MM:SS`, seconds "00" when absent;
      no time at all becomes midnight. */
  lemma ClockTextOfAdifTime(t: string)
    requires |t| == 0 || |t| == 4 || |t| == 6
    ensures |t| == 6 ==> ClockText(t) == t[..2] + ":" + t[2..4] + ":" + t[4..]
    ensures |t| == 4 ==> ClockText(t) == t[..2] + ":" + t[2..4] + ":00"
    ensures |t| == 0 ==> ClockText(t) == "00:00:00"
  {
  }

  /** With an ADIF Date and Time the start is the ISO 8601 instant `YYYY-MM-DDTHH:MM:SSZ`,
      seconds "00" for a four-digit time; without a time it is midnight. */
  lemma StartFormat(rec: Record)
    requires "qso_date" in rec && |rec["qso_date"]| == 8
    requires "time_on" in rec ==> |rec["time_on"]| == 4 || |rec["time_on"]| == 6
    ensures var d := rec["qso_date"];
      var day := d[..4] + "-" + d[4..6] + "-" + d[6..];
      ("time_on" !in rec ==> StartText(rec) == day + "T00:00:00Z") &&
      ("time_on" in rec && |rec["time_on"]| == 4 ==>
         var t := rec["time_on"]; StartText(rec) == day + "T" + t[..2] + ":" + t[2..] + ":00Z") &&
      ("time_on" in rec && |rec["time_on"]| == 6 ==>
         var t := rec["time_on"]; StartText(rec) == day + "T" + t[..2] + ":" + t[2..4] + ":" + t[4..] + "Z")
  {
    DateTextOfAdifDate(rec["qso_date"]);
    if "time_on" in rec { ClockTextOfAdifTime(rec["time_on"]); }
  }

  /** An input that gives the start expected at src/lib/qson-adif.spec.js:12: a record
      with only 20210705 and 1334 starts and ends at `2021-07-05T13:34:00Z`. The date and time are parameters so that the verifier does
      not unfold the text functions on literals. */
  lemma StartExample(date: string, time: string, parse: string -> Num)
    requires date == "20210705" && time == "1334"
    ensures var stamp := "2021-07-05T13:34:00Z";
      ReconstructBounds(map["qso_date" := date, "time_on" := time], parse) ==
        Ok(Bounds(Some(stamp), Some(parse(stamp)), Some(stamp), Some(parse(stamp))))
  {
    var rec := map["qso_date" := date, "time_on" := time];
    SampleStartText(date, time);
    assert "qso_date_off" !in rec && "time_off" !in rec;
  }

  lemma SampleStartText(date: string, time: string)
    requires date == "20210705" && time == "1334"
    ensures StartText(map["qso_date" := date, "time_on" := time]) == "2021-07-05T13:34:00Z"
  {
    SampleDate(date);
    SampleClock(time);
  }

  lemma SampleDate(date: string)
    requires date == "20210705"
    ensures DateText(date) == "2021-07-05"
  {
    DateTextOfAdifDate(date);
  }

  lemma SampleClock(time: string)
    requires time == "1334"
    ensures ClockText(time) == "13:34:00"
  {
    ClockTextOfAdifTime(time);
  }

  /** A `time_off` without `qso_date_off` takes its date from the first ten characters
      of the start, and nothing moves it to the next day when it is earlier than the
      start time: the end keeps the start's date and its own parsed milliseconds. */
  lemma EndReusesStartDate(rec: Record, parse: string -> Num)
    requires Truthy(rec, "qso_date") && |rec["qso_date"]| == 8
    requires !Truthy(rec, "qso_date_off") && Truthy(rec, "time_off")
    ensures var r := ReconstructBounds(rec, parse);
      var endText := rec["qso_date"][..4] + "-" + rec["qso_date"][4..6] + "-" + rec["qso_date"][6..] +
                     "T" + ClockText(rec["time_off"]) + "Z";
      r.Ok? && r.value.end == Some(endText) && r.value.endMillis == Some(parse(endText))
  {
    DateTextOfAdifDate(rec["qso_date"]);
    var start := StartText(rec);
    assert Substr(start, 0, 10) == DateText(rec["qso_date"]);
  }

  /** With an ADIF end date and end time the end is the ISO 8601 instant
      `YYYY-MM-DDTHH:MM:SSZ`, seconds "00" for a four-digit time, with its own parsed
      milliseconds. */
  lemma EndFormat(rec: Record, parse: string -> Num)
    requires "qso_date_off" in rec && |rec["qso_date_off"]| == 8
    requires "time_off" in rec && (|rec["time_off"]| == 4 || |rec["time_off"]| == 6)
    ensures var d := rec["qso_date_off"];
      var t := rec["time_off"];
      var day := d[..4] + "-" + d[4..6] + "-" + d[6..];
      var clock := if |t| == 6 then t[..2] + ":" + t[2..4] + ":" + t[4..] else t[..2] + ":" + t[2..] + ":00";
      var r := ReconstructBounds(rec, parse);
      r.Ok? && r.value.end == Some(day + "T" + clock + "Z") && r.value.endMillis == Some(parse(day + "T" + clock + "Z"))
  {
    var t := rec["time_off"];
    DateTextOfAdifDate(rec["qso_date_off"]);
    ClockTextOfAdifTime(t);
    assert |t| == 4 ==> t[2..4] == t[2..];
  }

  /** An end date without an end time is joined to its time by a space, not a `T`. */
  lemma EndDateWithoutTime(rec: Record, parse: string -> Num)
    requires Truthy(rec, "qso_date_off") && !Truthy(rec, "time_off")
    ensures var r := ReconstructBounds(rec, parse);
      r.Ok? && r.value.end == Some(DateText(rec["qso_date_off"]) + " 00:00:00Z")
  {
  }
}
