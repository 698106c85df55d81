# ADIF record normaliser, in Dafny

This project models the ADIF-to-QSON conversion of `src/lib/qson-adif.js`. The input is an amateur-radio contact log in ADIF, already tokenised into a header map and one tag map per record. The output is a list of QSO objects.

`parseAdifQSO` turns one record into a QSO:

- It copies station fields with `condSet`.
- It rebuilds the start and end instants from the ADIF Date (`YYYYMMDD`) and Time (`HHMM` or `HHMMSS`) fields.
- It gathers QSL confirmations from five tag conventions, in a fixed order, and keeps the earliest received date.
- It reformats counties with `cleanupCounty`.
- It adds a contest reference and appends the contest serials.
- A throw at any step drops the record.

`parseADIF` normalises every record, numbers the successes 1..M in input order, and sorts them by start instant, breaking ties by number.

Modules, one per file:

- `Js`: the JavaScript behaviour the code relies on. This covers `substr`, `||` on strings, `\d`, `\s`, ASCII case mapping, a case-insensitive substring search and `parseInt`.
- `Adif`: the record type and JavaScript truthiness of a field.
- `Frequency`: `parseFrequency`.
- `County`: `cleanupCounty`.
- `Fields`: `condSet` and the station field tables, with a general "last writer wins" lemma.
- `Timestamps`: the date block.
- `Qsl`: the QSL sources and the earliest-received loop.
- `Normalise`: the QSO object. `NormaliseRecord` specifies it; the method `ParseAdifQso` builds it step by step and is proved equal to it.
- `Batch`: `parseADIF`, with its numbering loop and an in-place sort on an array.

The host-library calls are parameters, gathered in `Normalise.Host`:

- `Date.parse(...).valueOf()` is a function from text to an integer or NaN.
- The floating-point MHz to kHz conversion of `parseFrequency` is a function from text to a real.
- `bandForFrequency` is a function from a frequency to an optional band name.

The tests at `src/lib/qson-adif.spec.js:61-65` and `:105` expect `T00:00:00Z` dates and a `"qsl"` channel. The code writes `T23:59:59Z` for a date-only confirmation and names the paper-card channel `"card"`. The model follows the code.

## Model

| member | source | states |
|---|---|---|
| Js.OrElse | src/lib/qson-adif.js:92-94 | `s || fallback` on a string: `fallback` when `s` is empty, since the empty string is falsy, and `s` otherwise |
| Js.Substr | src/lib/qson-adif.js:84-86 | `substr(start, length)` is the slice of the string from `start`, `length` long or cut short at the end, and empty past the end |
| Js.IsSpace | src/lib/qson-adif.js:57 | the class `\s`: the ECMAScript WhiteSpace code points (tab, vertical tab, form feed, space, no-break space, U+FEFF and the space separators U+1680, U+2000-U+200A, U+202F, U+205F, U+3000) and the LineTerminator code points (line feed, carriage return, U+2028, U+2029) |
| Js.TrimStart | src/lib/qson-adif.js:57 | what `\s*` consumes: the result is a suffix of the input, every dropped character is white space, and the result does not start with white space |
| Js.ToLowerCase | src/lib/qson-adif.js:74 | ASCII lower-casing keeps the length and maps each character on its own |
| Js.ContainsIgnoringCase | src/lib/qson-adif.js:52-58 | the unanchored `/pattern/i` test: some position of the text starts a match of the pattern, ignoring letter case |
| Js.ContainsIgnoringCaseAt | src/lib/qson-adif.js:52-53 | a case-insensitive occurrence of the pattern at any position makes an unanchored `/.../i` test match |
| Js.ParseInt | src/lib/qson-adif.js:246-250 | `parseInt(x, 10)` of a non-empty digit string is its decimal value |
| Adif.Truthy | src/lib/qson-adif.js:43 | a tag is truthy in JavaScript exactly when it is present and its text is not empty |
| Adif.FieldIs | src/lib/qson-adif.js:180 | `adifQSO.tag === value`: the tag is present and its text is that value |
| Adif.Get | src/lib/qson-adif.js:81 | reading `adifQSO.tag` gives the field's text exactly when the tag is present |
| Frequency.IsNumericFrequency | src/lib/qson-adif.js:303 | the test `/^[\d.]+$/`: the text is not empty and every character is a digit or a dot |
| Frequency.ParseFrequency | src/lib/qson-adif.js:303-312 | a number of kHz exactly when the input is a non-empty string of digits and dots, the converted value then; `undefined` for no input; any other string passed through unchanged |
| County.ReplaceFirstComma | src/lib/qson-adif.js:57 | `county.replace(/,\s*/, "/")`: the text before the first comma, `/`, then what follows the comma with its leading white space removed; unchanged without a comma |
| County.IsUsCountry | src/lib/qson-adif.js:52-56 | the country is given and contains "United States", "Hawaii" or "Alaska" in any letter case |
| County.IsPuertoRico | src/lib/qson-adif.js:53-58 | the country is given and contains "Puerto Rico" in any letter case |
| County.ReplaceWithoutComma | src/lib/qson-adif.js:57 | a county without a comma is left unchanged by the `,\s*` replacement |
| County.ReplaceAtFirstComma | src/lib/qson-adif.js:57-61 | only the first comma and the white space after it become `/`; everything before it, and everything after that white space (later commas included), is kept |
| County.CountyPrefix | src/lib/qson-adif.js:52-62 | `US/` when the country matches United States, Hawaii or Alaska in any letter case; no prefix for Puerto Rico; `??/` otherwise |
| County.CleanupCounty | src/lib/qson-adif.js:55-63 | the country's prefix followed by the county with its first comma reformatted |
| County.CountyShape | src/lib/qson-adif.js:55-63 | a county `State,<spaces>Name` becomes prefix + `State/Name` |
| County.ReplaceShape | src/lib/qson-adif.js:57 | the comma replacement turns `State,<spaces>Name` into `State/Name` |
| County.UsCountryByPrefix | src/lib/qson-adif.js:52-56 | a country name starting with a US name, in any letter case, is a US country |
| County.UsCounty | src/lib/qson-adif.js:52-61 | a county `State,<spaces>Name` in a country starting with a US name becomes `US/State/Name` |
| County.UnitedStatesIsUs | src/lib/qson-adif.js:52-56 | "United States" in title case or upper case is a US country |
| County.SullivanExample | src/lib/qson-adif.spec.js:19 | "United States" with "NY,SULLIVAN" gives "US/NY/SULLIVAN" |
| County.UnionExample | src/lib/qson-adif.spec.js:25 | "UNITED STATES" with "GA, UNION" gives "US/GA/UNION" |
| Fields.DestKey | src/lib/qson-adif.js:45 | `destField || field`: the field name when the destination name is empty |
| Fields.CondSet | src/lib/qson-adif.js:42-50 | `dest[destField or field]` is set to `f(src[field])` exactly when the field is present and non-empty; no other key changes, and otherwise `dest` is unchanged |
| Fields.Converter | src/lib/qson-adif.js:240-277 | the conversion a row passes to `condSet`: the text itself, `parseInt(x, 10)`, or `cleanupCounty` against the station's country at the time of the call |
| Fields.Fire | src/lib/qson-adif.js:237-277 | one `condSet(adifQSO, station, field, destField, f)` call of a table |
| Fields.ApplyRules | src/lib/qson-adif.js:237-277 | the calls of a table made in order, first row first |
| Fields.OurHeadRules | src/lib/qson-adif.js:69-70 | the two `condSet` calls that copy `operator` and `station_callsign` (as `call`) into "our" station |
| Fields.TheirHeadRules | src/lib/qson-adif.js:71 | the `condSet` call that copies `call` into "their" station |
| Fields.TheirRules | src/lib/qson-adif.js:237-255 | the nineteen `condSet` calls for the station worked, in source order with their fields, keys and conversions |
| Fields.OurRules | src/lib/qson-adif.js:257-277 | the twenty `condSet` calls for our own station, in source order |
| Fields.LastWriter | src/lib/qson-adif.js:237-277 | the last row of a `condSet` table that writes a key for this record, or none |
| Fields.LastWriterWins | src/lib/qson-adif.js:237-277 | after a table a key holds what its last writing row converted, from the station as that row saw it; a key no row writes keeps its old value or stays absent |
| Fields.NoWriterKeeps | src/lib/qson-adif.js:42-50 | when no row of a table writes a key, the key keeps its old value, or stays absent |
| Fields.LastWriterKeeps | src/lib/qson-adif.js:42-50 | when row `i` writes a key and no later row does, the key holds row `i`'s conversion of its field, computed from the station as row `i` saw it |
| Fields.AliasedInt | src/lib/qson-adif.js:246-249 | of two integer aliases of one key the later wins, either alone is used, and with neither the key is untouched |
| Fields.SingleTextRow | src/lib/qson-adif.js:244 | a key written by one text row holds the tag's text when the tag is given, and is untouched otherwise |
| Fields.TheirZoneAliases | src/lib/qson-adif.js:246-249 | "their" `cqZone` is `parseInt(cq_zone)` if given, else `parseInt(cqz)`; likewise `ituZone` from `itu_zone` over `ituz` |
| Fields.OurZoneAliases | src/lib/qson-adif.js:266-269 | "our" `cqZone` from `my_cq_zone` over `my_cqz`, and `ituZone` from `my_itu_zone` over `my_ituz` |
| Fields.CountyAfterCountry | src/lib/qson-adif.js:240-245 | a county row that follows the only country row cleans the county up against the country the record gives, or else against the country the station already held |
| Fields.CountryBefore | src/lib/qson-adif.js:239-240 | after a table whose only country row reads a tag, the station's country is that tag's text when given, and its earlier country otherwise |
| Fields.TheirCountyUsesCountry | src/lib/qson-adif.js:240-245 | "their" county is `cleanupCounty(country, cnty)`, or cleaned up against the station's earlier country when there is no `country` tag |
| Fields.OurCountyUsesCountry | src/lib/qson-adif.js:260-265 | "our" county is `cleanupCounty(my_country, my_cnty)`, or cleaned up against the station's earlier country when there is no `my_country` tag |
| Fields.Untouched | src/lib/qson-adif.js:237-277 | a key that no row writes for the record is unchanged by the table |
| Fields.TheirEntityPrefixNeverSet | src/lib/qson-adif.js:255 | with lower-case tags, the camel-case `ituPrefix` row never fires, so the table never sets "their" `entityPrefix` |
| Fields.CamelCaseTagAbsent | src/lib/qson-adif.js:255 | a record with lower-case tags has no `ituPrefix` tag |
| Fields.EntityPrefixWithoutTag | src/lib/qson-adif.js:255 | without an `ituPrefix` tag, "their" `entityPrefix` is untouched |
| Timestamps.DateText | src/lib/qson-adif.js:84-86 | `[d.substr(0, 4), d.substr(4, 2), d.substr(6, 2)].join("-")` |
| Timestamps.ClockText | src/lib/qson-adif.js:91-95 | the three two-character pieces of a time, each `"00"` when empty, joined by `:` |
| Timestamps.StartText | src/lib/qson-adif.js:83-99 | the start text: the date, then `T`, the clock and `Z`, or `T00:00:00Z` without a time |
| Timestamps.DayEnd | src/lib/qson-adif.js:150-154 | a QSL date without a time: the date text followed by `T23:59:59Z` |
| Timestamps.Mirror | src/lib/qson-adif.js:135-142 | each bound carries the parse of its own text, and a single known bound is copied into the other |
| Timestamps.ReconstructBounds | src/lib/qson-adif.js:83-142 | throws exactly for `time_off` with neither date. Otherwise: start and end exist together, exactly when a date is given; each carries the parse of its own text; with `qso_date` the start is the rebuilt start text; with `qso_date_off` and `time_off` the end is the end date, `T`, the end clock and `Z`; a single bound is copied into the other, millis included |
| Timestamps.DateTextOfAdifDate | src/lib/qson-adif.js:84-86 | an 8-character date `YYYYMMDD` becomes `YYYY-MM-DD` |
| Timestamps.ClockTextOfAdifTime | src/lib/qson-adif.js:91-95 | `HHMMSS` becomes `HH:MM:SS`, `HHMM` becomes `HH:MM:00`, and an empty time `00:00:00` |
| Timestamps.StartFormat | src/lib/qson-adif.js:83-99 | the start is `YYYY-MM-DDTHH:MM:SSZ`, with seconds `00` for a 4-digit time and `T00:00:00Z` without a time |
| Timestamps.EndFormat | src/lib/qson-adif.js:104-118 | with an ADIF end date and end time the end is `YYYY-MM-DDTHH:MM:SSZ`, seconds `00` for a 4-digit time, with its own parsed millis |
| Timestamps.StartExample | src/lib/qson-adif.spec.js:12 | 20210705 at 1334 gives start and end "2021-07-05T13:34:00Z" with equal millis |
| Timestamps.EndReusesStartDate | src/lib/qson-adif.js:123-134 | a `time_off` without `qso_date_off` takes the start's date, without rolling over to the next day |
| Timestamps.EndDateWithoutTime | src/lib/qson-adif.js:119-121 | an end date without an end time is joined by a space: `YYYY-MM-DD 00:00:00Z` |
| Qsl.FirstJoin | src/lib/qson-adif.js:199-200 | the first space preceded by a digit and followed by digits and a colon: the space `/(\d+) (\d+):/` replaces |
| Qsl.LotwStamp | src/lib/qson-adif.js:199-200 | `x.replace(/(\d+) (\d+):/, "$1T$2:") + "Z"`: the first such space becomes `T`, and `Z` is appended |
| Qsl.LotwStampOfDateTime | src/lib/qson-adif.js:199-200 | LoTW's `YYYY-MM-DD HH:MM:SS` becomes `YYYY-MM-DDTHH:MM:SSZ` |
| Qsl.LotwStampExample | src/lib/qson-adif.spec.js:29-32 | "2021-07-06 12:59:09" becomes "2021-07-06T12:59:09Z" |
| Qsl.QrzSource | src/lib/qson-adif.js:144-156 | the QRZ block: a `{via: "qrz"}` object with the log id under `id`, then `received` set to the end of the confirmation day |
| Qsl.LotwSource | src/lib/qson-adif.js:158-178 | the LoTW block: a `{via: "lotw"}` object with `received`, and `sent` when `lotw_qslsdate` is given |
| Qsl.EqslSource | src/lib/qson-adif.js:180-193 | the step throws exactly when `eqsl_qsl_rcvd` is "Y", `eqsl_sql_rdate` is given and `eqsl_qsl_rdate` is absent; without "Y" it pushes nothing |
| Qsl.LotwAppSource | src/lib/qson-adif.js:195-202 | the block for other programs' LoTW fields: a `{via: "lotw"}` object filled by two `condSet` calls with the LoTW stamp conversion |
| Qsl.CardSource | src/lib/qson-adif.js:204-223 | the paper-card block: a `{via: "card"}` object filled by two `condSet` calls with the end-of-day conversion |
| Qsl.Shaped | src/lib/qson-adif.js:144-223 | a source object `{via, id?, received?, sent?}` with exactly the members given, holding the given values |
| Qsl.QrzSourceShape | src/lib/qson-adif.js:144-156 | one source exactly when `app_qrzlog_qsldate` is given: `via` "qrz", `received` the end of that day, `id` the log id exactly when given, no `sent` |
| Qsl.LotwSourceShape | src/lib/qson-adif.js:158-178 | one source exactly when `lotw_qslrdate` is given: `via` "lotw", `received` the end of that day, `sent` the end of the `lotw_qslsdate` day exactly when that is given, no `id` |
| Qsl.EqslSourceShape | src/lib/qson-adif.js:180-193 | with "Y" and no throw, one `eqsl` source whose `received` is the end of the `eqsl_qsl_rdate` day exactly when the misspelled `eqsl_sql_rdate` is given, so a correctly spelled date alone gives no date |
| Qsl.LotwAppSourceShape | src/lib/qson-adif.js:195-202 | one source exactly when `app_lotw_rxqsl` is given: `via` "lotw", `received` its LoTW stamp, `sent` the stamp of `app_lotw_rxqso` exactly when that is given |
| Qsl.CardSourceShape | src/lib/qson-adif.js:204-223 | one source exactly when `qsl_rcvd` is "Y": `via` "card", `received` and `sent` the ends of the `qslrdate` and `qslsdate` days exactly when those are given |
| Qsl.FiredChannels | src/lib/qson-adif.js:144-223 | the channels whose trigger fires, in the order qrz, lotw, eqsl, lotw, card |
| Qsl.ChannelVias | src/lib/qson-adif.js:144-223 | each channel pushes one source tagged with its name exactly when its trigger fires |
| Qsl.QslSources | src/lib/qson-adif.js:144-223 | throws exactly in the eQSL case; otherwise the sources' `via`s are the fired channels in the order qrz, lotw, eqsl, lotw, card |
| Qsl.Dated | src/lib/qson-adif.js:227 | `if (s.received)`: the source has a non-empty `received` |
| Qsl.Unset | src/lib/qson-adif.js:229 | `!qso.qsl.receivedMillis`: the millis are undefined, NaN or 0, all falsy |
| Qsl.Below | src/lib/qson-adif.js:229 | `millis < qso.qsl.receivedMillis`: both are numbers and the first is smaller, so false whenever either side is NaN or undefined |
| Qsl.Step | src/lib/qson-adif.js:226-233 | one turn of the loop: a dated source replaces the current pick when nothing is picked yet (unset, NaN or 0 millis) or its millis are smaller |
| Qsl.EarliestOf | src/lib/qson-adif.js:225-235 | the loop over all sources, first source first, from nothing picked |
| Qsl.PickEarliest | src/lib/qson-adif.js:225-235 | the loop leaves `received`/`receivedMillis` at the value of the fold `Qsl.EarliestOf` over the sources |
| Qsl.ReceivedIffDated | src/lib/qson-adif.js:225-235 | `received` is set exactly when some source carries a received date, and `receivedMillis` is set with it |
| Qsl.FirstEarliestKept | src/lib/qson-adif.js:229-232 | a later source that is not strictly earlier leaves the first earliest source in place |
| Qsl.FirstEarliestReplaced | src/lib/qson-adif.js:229-232 | a later source that is strictly earlier becomes the first earliest source |
| Qsl.FirstEarliestAlone | src/lib/qson-adif.js:229-232 | the first dated source is the earliest of the sources up to it |
| Qsl.EarliestStep | src/lib/qson-adif.js:225-235 | one more iteration of the loop keeps `received` at the first earliest source: the old one, or the new source when it is strictly earlier |
| Qsl.FirstMinimumIndex | src/lib/qson-adif.js:225-235 | when every date parses to a nonzero number and some source is dated, the loop ends holding a dated source that is the first earliest one |
| Qsl.EarliestIsFirstMinimum | src/lib/qson-adif.js:225-235 | when every date parses to a nonzero number, `received` is the date of the first source with the smallest instant and `receivedMillis` is that instant; with no dates both stay unset |
| Normalise.Band | src/lib/qson-adif.js:73-74 | the lower-cased `band` tag when given, else `bandForFrequency(qso.freq)` |
| Normalise.WithReceiveFrequency | src/lib/qson-adif.js:76-79 | with `freq_rx`, "their" station gets the parsed frequency and the `band_rx` text or the band of that frequency |
| Normalise.SentText | src/lib/qson-adif.js:283-286 | `station.sent` read inside a string concatenation: its text, or `"undefined"` when it was never set |
| Normalise.AppendExchange | src/lib/qson-adif.js:282-287 | with the serial tag given, `sent` becomes the old `sent` (or `"undefined"`), a space and the serial |
| Normalise.ContestRefs | src/lib/qson-adif.js:279-281 | one `{type: "contest", ref}` exactly when `contest_id` is given |
| Normalise.Summarise | src/lib/qson-adif.js:144-235 | `qso.qsl` exists once a source was pushed, and holds the sources and the earliest received date |
| Normalise.TheirFields | src/lib/qson-adif.js:71-255 | "their" station just before the contest block |
| Normalise.OurFields | src/lib/qson-adif.js:69-277 | "our" station just before the contest block |
| Normalise.Throws | src/lib/qson-adif.js:123-190 | the two reads that throw: `time_off` with no date, and the eQSL date gated on a tag other than the one read |
| Normalise.NormaliseRecord | src/lib/qson-adif.js:65-301 | the record is dropped exactly on the two throwing reads. A kept QSO has no number yet; has `qsl` exactly when a channel fired, with sources in channel order; has `refs` exactly when `contest_id` is given; has a start exactly when a date is given |
| Normalise.BoundsOfRecord | src/lib/qson-adif.js:83-142 | a kept QSO's start, end and their millis are those the date block computes |
| Normalise.BuildBounds | src/lib/qson-adif.js:83-142 | the step-by-step date block computes `Timestamps.ReconstructBounds` |
| Normalise.CollectSources | src/lib/qson-adif.js:144-223 | the step-by-step channel pushes compute `Qsl.QslSources` |
| Normalise.ParseAdifQso | src/lib/qson-adif.js:65-301 | the step-by-step construction computes `NormaliseRecord` |
| Normalise.Calls | src/lib/qson-adif.js:69-71 | "their" call, "our" call and operator are the tags' text when given, and absent otherwise |
| Normalise.TheirCall | src/lib/qson-adif.js:71 | "their" call is copied from `call`, and no later row writes it |
| Normalise.OurCalls | src/lib/qson-adif.js:69-70 | "our" call from `station_callsign` and operator from `operator`; no later row writes them |
| Normalise.ReceiveBand | src/lib/qson-adif.js:76-79 | with `freq_rx`, "their" station gets its parsed frequency and either the raw `band_rx` or the band of that frequency; without it, neither |
| Normalise.ReceiveFields | src/lib/qson-adif.js:76-79 | with `freq_rx`, "their" station before the contest block has the parsed frequency and the `band_rx` text or the band of that frequency; without it, neither key |
| Normalise.BandRule | src/lib/qson-adif.js:73-74 | `qso.band` is the lower-cased `band` tag when given, else `bandForFrequency(qso.freq)` |
| Normalise.QslOfRecord | src/lib/qson-adif.js:144-235 | a kept QSO's QSL sources follow the channel order; `received` is set exactly when a source is dated, and is the first earliest one when dates are well formed |
| Normalise.SummaryOfSources | src/lib/qson-adif.js:225-235 | the summary of non-empty sources keeps them; `received` is set exactly when one is dated, and with well-formed dates is the first earliest one with its instant |
| Normalise.TheirCounty | src/lib/qson-adif.js:240-245 | "their" county is `cleanupCounty(country, cnty)`, and with no `country` tag it is cleaned up against an undefined country, so it gets the `??/` prefix |
| Normalise.OurCounty | src/lib/qson-adif.js:260-265 | "our" county is `cleanupCounty(my_country, my_cnty)`, with the `??/` prefix when `my_country` is absent |
| Normalise.TheirSentBeforeContest | src/lib/qson-adif.js:244 | before the contest block, "their" `sent` reads as `rst_rcvd`, or `"undefined"` without it |
| Normalise.OurSentBeforeContest | src/lib/qson-adif.js:264 | before the contest block, "our" `sent` reads as `my_rst_sent`, or `"undefined"` without it |
| Normalise.ContestExchange | src/lib/qson-adif.js:279-288 | a contest id adds exactly one `{type: "contest", ref}`. `srx` and `stx` follow the reports after one space, with `"undefined"` for a missing report. A missing serial, or no contest id, leaves its station as it was; no key but `sent` ever changes |
| Batch.Stamp | src/lib/qson-adif.js:22 | `qso.number = qsoCount`: the QSO with its number set and everything else kept |
| Batch.Outcomes | src/lib/qson-adif.js:18-24 | one normalisation outcome per record, in input order |
| Batch.Numbered | src/lib/qson-adif.js:18-25 | the `i`-th numbered QSO carries number `i + 1` |
| Batch.Kept | src/lib/qson-adif.js:18-25 | the positions of the records that normalise: in range, increasing, and every such record included |
| Batch.NumberedFromKept | src/lib/qson-adif.js:18-24 | the `i`-th numbered QSO is the `i`-th record that normalises, stamped `i + 1`; a dropped record does not stop the ones after it |
| Batch.NumberAll | src/lib/qson-adif.js:18-25 | the counting loop computes `Numbered` |
| Batch.Precedes | src/lib/qson-adif.js:27-33 | the comparator: smaller start millis first, equal millis broken by the smaller number |
| Batch.Sorted | src/lib/qson-adif.js:27-33 | every QSO precedes every later one under the comparator |
| Batch.SortByStart | src/lib/qson-adif.js:27-33 | the array ends sorted by start millis, then number, and is a permutation of what it held |
| Batch.SortList | src/lib/qson-adif.js:27-33 | the list, sorted in an array in place, comes back sorted and as a permutation of itself |
| Batch.InsertAt | src/lib/qson-adif.js:27-33 | one insertion step: with the first `i` QSOs sorted, the first `i + 1` end sorted, the QSOs after `i` stay where they were, and the array keeps its contents |
| Batch.SwapStep | src/lib/qson-adif.js:27-33 | exchanging the moving QSO with an earlier one that the comparator puts after it keeps the step's invariant and the contents |
| Batch.InsertDone | src/lib/qson-adif.js:27-33 | when the moving QSO stops, the first `i + 1` QSOs are sorted |
| Batch.PermutationTimed | src/lib/qson-adif.js:27-33 | reordering QSOs with numeric start millis gives QSOs with numeric start millis |
| Batch.ParseAdif | src/lib/qson-adif.js:8-40 | source "adif", the raw headers, and the QSOs as a sorted permutation of the numbered successes, each with numeric start millis |
| Batch.NumberedTimed | src/lib/qson-adif.js:27-33 | when every kept record has numeric start millis, so does every numbered QSO |
| Batch.NumbersOneToM | src/lib/qson-adif.js:18-24 | a permutation of the numbered list has exactly M entries, M the number of records that normalise, and carries each number 1..M |
| Batch.SortedPermutationUnique | src/lib/qson-adif.js:27-33 | two sorted permutations of a list whose numbers identify its QSOs are equal |
| Batch.SortedTail | src/lib/qson-adif.js:27-33 | dropping the first QSO keeps a list sorted and keeps its numbers identifying its QSOs |
| Batch.SameHead | src/lib/qson-adif.js:27-33 | two such sorted permutations start with the same QSO |
| Batch.SortedOutputUnique | src/lib/qson-adif.js:27-33 | every sorted permutation of the numbered list is the same list, whatever the sorting algorithm |

## Left out

- `AdifParser.parseAdi` (src/lib/qson-adif.js:1,14) is a foreign tokenizer. The model takes its output as input: a header map, and records mapping lower-case tags to text.
- `adifToQSON` (src/lib/qson-adif.js:4-6) only calls `parseADIF` and has no member of its own.
- `Date.parse` is the parameter `Host.parse`. What an engine makes of the space-separated end text of line 120 is therefore not modelled.
- `Qsl.EarliestIsFirstMinimum`: holds only when every received date parses to a finite number other than 0. The code treats a NaN or 0 `receivedMillis` as unset, and the fold `Qsl.EarliestOf` models that exactly.
- The floating-point MHz to kHz conversion of `parseFrequency`, including its `Number.EPSILON` rounding (lines 307-308), is the parameter `Host.mhzToKhz`.
- `Frequency.ParseFrequency`: the conversion returns a real, so it cannot give NaN. A text of dots only, such as `"."`, passes `/^[\d.]+$/` and gives NaN in the code (`parseFloat` at line 307); the model gives `KHz(mhzToKhz("."))`.
- A Dafny `char` is a Unicode scalar value, while `substr` counts UTF-16 code units. The two agree on the ASCII text of ADIF fields and differ on characters outside the Basic Multilingual Plane.
- `bandForFrequency` is the parameter `Host.bandFor`.
- `console.error` in the catch block (lines 292-298) is I/O; only the returned `false` (`None`) is modelled.
- `Js.ParseInt`: its contract covers non-empty digit strings only. Its body also models white space, sign and NaN, but JavaScript's 53-bit number precision is not modelled.
- `Js.ToLowerCase`: maps ASCII letters only. JavaScript's `toLowerCase` also lower-cases non-ASCII letters in a `band` tag.
- Property order of JavaScript objects is not modelled: stations and QSL sources are maps.
- A property assigned `undefined` is modelled where the code assigns one: `qso.freq` (`Missing`), `qso.band` and `qso.mode` (`None`), and "their" `band` (`Undefined`). A property the code never sets is `None` or an absent map key.
- `Batch.ParseAdif`: requires every kept record to have a numeric `startMillis`. Otherwise the comparator is inconsistent and the engine's sort order is unspecified.
- `Batch.SortByStart` is an insertion sort. It stands for the engine's `Array.prototype.sort`, whose algorithm is not part of the source. `Batch.SortedOutputUnique` shows that every correct sort gives the same list.
