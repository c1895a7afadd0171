# AvWeather decoding core in Dafny

This project models the decoding core of AvWeather, a Swift library that
turns the aviation weather service's feeds into typed records:

- **TAF decoder** (`TafDecoder`, `TafModel`). It is a push-style XML delegate with three states: outside, in a `TAF`, and in a `forecast` period.
  - It fills a TAF record and its forecast periods field by field.
  - It aborts the parse with a per-field message when a date, number or change indicator does not convert.
  - At the end it sorts the reports by issue time, latest first.
- **Strict METAR decoder** (`MetarDecoder`, `MetarModel`). It has the same shape with one level, two states and 27 leaf elements. Every conversion failure aborts the parse.
- **Legacy METAR loader** (`LegacyMetarLoader`). It is an older, lenient delegate with its own `Metar` record:
  - unset numbers are NaN or `Int.max`;
  - a field whose text does not convert keeps its old value;
  - it chooses an error kind when the parse fails.
- **SIGMET model and request** (`SigmetModel`, `SigmetDecoder`). It covers:
  - the GeoJSON-like feature record and its derived `text`, `type` and `severityValue`;
  - the raw-value enums and the wire names of the property keys;
  - the shape-driven coordinate decoder and its encoder;
  - the request's post-processing: it drops the response entry of the international feed, then sorts by validity start, latest first.

Shared pieces:

- `Primitives`: `Option`, `Result`, the concrete `Int(String)` grammar, and opaque `Double`/`Float`.
- `XmlEvents`: the XML event stream and the `num_results` check.
- `SkyCover`: the sky-cover enum and the layer rule that all three XML decoders share.
- `Sorting`: a descending insertion sort proved sorted and a permutation.
- `JsonValues`: a JSON value tree.

The XML parser is modelled by the sequence of events it delivers:

- `Start`, `End` and `Text` events.
- A `Malformed` event, which stands for the parser's own well-formedness failure.
- `abortParsing()`, modelled as an `aborted` flag; the delegate receives no further events once it is set.

Each decoder is a class whose fields are those of the Swift object. The callbacks are methods that update those fields. `Decode`/`Load` run the events through the callbacks in a loop. The per-field conversions are pure functions on a record. Each of them states:

- which leaf changes and to what value;
- that every other field is left alone;
- exactly when, and with which message, the parse aborts.

`ISO8601DateFormatter.date(from:)`, `Double(String)` and `Float(String)` are partial functions passed in as parameters (`Conversions`). Dates are integers (seconds), and `Date.distantPast` is a constant.

Some behaviours of the code are easy to misread. The model follows the code in each:

- A SIGMET is international when `rawSigmet` is present, even when it is empty. Its text is empty only when both raw texts are absent.
- A single JSON number decodes as a point coordinate.
- The decoders throw `parsing(message:)` with the fixed per-field messages of the code; there is no structured field/raw-text error.
- The strict METAR decoder aborts on any failed conversion. Only the legacy loader is lenient.
- A zero `num_results` gives `parsing("Invalid station string.")`.
- The TAF and METAR request objects keep `tafs`/`metars` across `decode` calls; the lists are never reset, so the model states `old(tafs) <= tafs`.
- SIGMET properties are one record of optional fields, as in the code, not a union of two families.

## Model

| member | source | states |
|---|---|---|
| Primitives.ParseInt | Sources/AvWeather/Requests/TAFRequest.swift:292 | `Int(String)` succeeds exactly on an optional sign followed by one or more ASCII digits |
| Primitives.Join | Sources/AvWeather/Requests/TAFRequest.swift:46 | `joined(separator:)`: no parts give the empty text, one part is itself, two parts are joined around the separator, and more parts are the first, the separator and the join of the rest |
| Primitives.ParseFormatInt | Sources/AvWeather/Requests/TAFRequest.swift:45 | the decimal text written for an integer reads back as that integer |
| XmlEvents.Deliver | Sources/AvWeather/Requests/TAFRequest.swift:56-58 | the delegate state the parser leaves after delivering the events in order, stopping at the delegate's abort or at a well-formedness failure; it reports malformed only when a `Malformed` event occurs, and a run that neither aborts nor fails has met none |
| XmlEvents.DeliverNext | Sources/AvWeather/Requests/TAFRequest.swift:56-58 | while the delegate runs, the next event is delivered to it as one step, or marks the document malformed |
| XmlEvents.DeliverHalts | Sources/AvWeather/Requests/TAFRequest.swift:56-58 | once the delegate is halted or the document malformed, the events after that point change nothing |
| XmlEvents.CheckNumResults | Sources/AvWeather/Requests/TAFRequest.swift:74-86 | `num_results` missing or not an integer is "unreadable"; 0 is "no results"; otherwise the count is that non-zero integer |
| SkyCover.FromRaw | Sources/AvWeather/Models/TAF.swift:19-28 | `SkyCoverConditions(rawValue:)` only returns a case whose raw value is the text |
| SkyCover.FromRawRaw | Sources/AvWeather/Models/TAF.swift:19-28 | every cover is recognised by its own raw value, and the eight raw values are distinct |
| SkyCover.RawIsNotInt | Sources/AvWeather/Models/Metar.swift:43-52 | no cover code is an integer literal |
| SkyCover.ReportedLayer | Sources/AvWeather/Requests/TAFRequest.swift:97-111 | no `sky_cover` gives no layer; CLR gives (clr, 0) whatever the base says; any other cover needs an integer `cloud_base_ft_agl`, and its cover is the `sky_cover` code, or skc when the text is no known code; a clear layer always has base 0 |
| Sorting.SortDesc | Sources/AvWeather/Requests/TAFRequest.swift:63-65 | the result is ordered by non-increasing key and is a permutation of the input |
| TafModel.CloudTypeFromRaw | Sources/AvWeather/Models/TAF.swift:31-35 | `CloudType(rawValue:)` only returns a case whose raw value is the text |
| TafModel.CloudTypeFromRawRaw | Sources/AvWeather/Models/TAF.swift:31-35 | CB, TCU and CU are each recognised by their raw value and are distinct |
| TafModel.ChangeIndicatorFromRaw | Sources/AvWeather/Models/TAF.swift:133-138 | `ChangeIndicator(rawValue:)` only returns a case whose raw value is the text |
| TafModel.ChangeIndicatorFromRawRaw | Sources/AvWeather/Models/TAF.swift:133-138 | TEMPO, BECMG, FM and PROB are each recognised by their raw value and are distinct |
| TafModel.NewSkyCondition | Sources/AvWeather/Models/TAF.swift:46-51 | the initialiser stores cover, base and cloud type as given; the cloud type defaults to none |
| TafModel.NewTurbulenceCondition | Sources/AvWeather/Models/TAF.swift:63-67 | stores the three values; each defaults to 0 |
| TafModel.NewIcingCondition | Sources/AvWeather/Models/TAF.swift:79-83 | stores the three values; each defaults to 0 |
| TafModel.NewTemperature | Sources/AvWeather/Models/TAF.swift:96-101 | stores the valid time and the three optional temperatures; each defaults to none |
| TafModel.ForecastLeafOf | Sources/AvWeather/Requests/TAFRequest.swift:252-379 | an element name is taken as a forecast leaf only if it is that leaf's name |
| TafModel.ForecastLeafOfName | Sources/AvWeather/Requests/TAFRequest.swift:252-379 | each of the 16 forecast leaves is recognised by its own name, and the names are distinct |
| TafModel.TafLeafOf | Sources/AvWeather/Requests/TAFRequest.swift:173-248 | an element name is taken as a TAF leaf only if it is that leaf's name |
| TafModel.TafLeafOfName | Sources/AvWeather/Requests/TAFRequest.swift:173-248 | each of the 10 TAF leaves is recognised by its own name, and the names are distinct |
| TafModel.NewForecast | Sources/AvWeather/Models/TAF.swift:183-204 | `Forecast()` leaves every optional field absent, so it differs from a reported 0; all four lists are empty; both bounds are `distantPast` |
| TafModel.NewTaf | Sources/AvWeather/Models/TAF.swift:207-219 | `TAF()` has no forecasts and no remarks; the four dates are `distantPast`; position and elevation are 0; the texts are empty |
| TafModel.ConstructorDoesNotGround | Sources/AvWeather/Models/TAF.swift:16 | the documented "CLR means base 0" is not enforced by the initialiser: a clear layer at 1200 ft can be built |
| TafModel.GroundedAppend | Sources/AvWeather/Requests/TAFRequest.swift:157-161 | appending a grounded report keeps every report grounded |
| TafModel.GroundedPermutation | Sources/AvWeather/Requests/TAFRequest.swift:63-65 | reordering the reports keeps every report grounded |
| TafDecoder.ApplyTafLeaf | Sources/AvWeather/Requests/TAFRequest.swift:171-248 | the four dates and the three Doubles must convert, or the parse aborts with that field's message; otherwise exactly that field takes the converted text (remarks become present); the other fields and the forecasts are unchanged |
| TafDecoder.ApplyForecastLeaf | Sources/AvWeather/Requests/TAFRequest.swift:250-379 | the dates, the seven integers, the three Doubles and the change indicator must convert, or the parse aborts with that field's message; otherwise exactly that field is set; the four lists and the other fields are unchanged |
| TafDecoder.TafSkyLayer | Sources/AvWeather/Requests/TAFRequest.swift:97-111 | the layer is the reported cover and base; a cloud type is set only for a non-CLR layer with a recognised `cloud_type`; CLR has base 0 |
| TafDecoder.TafRequest.ForStations | Sources/AvWeather/Requests/TAFRequest.swift:35-52 | the query is dataSource=tafs, hoursBeforeNow, and the stations joined by commas, plus `mostRecentForEachStation=constraint` when asked; the parse state starts empty |
| TafDecoder.TafRequest.DidStartElement | Sources/AvWeather/Requests/TAFRequest.swift:70-135 | `data` aborts with "Failed to parse TAF XML." or "Invalid station string."; `TAF`/`forecast` start a fresh record and state; `sky_condition` appends the layer only inside a forecast; the three condition groups change nothing; other starts clear the buffer; the new delegate state is `TafStart` of the old one; `queryParams` is unchanged |
| TafDecoder.TafRequest.DidEndElement | Sources/AvWeather/Requests/TAFRequest.swift:137-382 | a non-empty `error` aborts with its text; `warning` changes nothing; `TAF` appends the report; `forecast` appends the period to the report; other ends apply the leaf of the current state; the new delegate state is `TafEnd` of the old one; `queryParams` is unchanged |
| TafDecoder.TafRequest.FoundCharacters | Sources/AvWeather/Requests/TAFRequest.swift:385-387 | the text is appended to the buffer and nothing else changes |
| TafDecoder.TafRequest.Decode | Sources/AvWeather/Requests/TAFRequest.swift:54-68 | the delegate ends in the state `Deliver` reaches by running the events through the callbacks from the current state with the abort flag cleared; fails with `parsing(message)` exactly when that run aborted or met a malformed document, and returns no list; otherwise returns that run's reports latest-issued first, as a permutation, with every clear layer at base 0; `queryParams` is unchanged |
| MetarModel.MetarTypeFromRaw | Sources/AvWeather/Models/Metar.swift:17-20 | `MetarType(rawValue:)` only returns a case whose raw value is the text |
| MetarModel.MetarTypeFromRawRaw | Sources/AvWeather/Models/Metar.swift:17-20 | METAR and SPECI are each recognised by their raw value and are distinct |
| MetarModel.FlightCategoryFromRaw | Sources/AvWeather/Models/Metar.swift:33-38 | `FlightCategory(rawValue:)` only returns a case whose raw value is the text |
| MetarModel.FlightCategoryFromRawRaw | Sources/AvWeather/Models/Metar.swift:33-38 | VFR, MVFR, IFR and LIFR are each recognised by their raw value and are distinct |
| MetarModel.MetarLeafOf | Sources/AvWeather/Requests/MetarRequest.swift:107-318 | an element name is a leaf exactly when it is that leaf's name; any other name is no leaf |
| MetarModel.MetarLeafOfName | Sources/AvWeather/Requests/MetarRequest.swift:107-318 | each of the 27 leaves is recognised by its own element name |
| MetarModel.NewMetar | Sources/AvWeather/Models/Metar.swift:135-165 | `Metar()`: every Double is 0, every Int is 0, the texts are empty, the time is `distantPast`, VFR, type METAR, no flags and no layers |
| MetarModel.ConstructorDoesNotGround | Sources/AvWeather/Models/Metar.swift:40 | the documented "CLR means base 0" is not enforced by `SkyCondition.init`: a clear layer at 2500 ft can be built |
| MetarModel.GroundedAppend | Sources/AvWeather/Requests/MetarRequest.swift:99-103 | appending a grounded report keeps every report grounded |
| MetarDecoder.ApplyMetarLeaf | Sources/AvWeather/Requests/MetarRequest.swift:106-318 | texts always apply; the date, Ints, Doubles, flight category and METAR type must convert, or the parse aborts with the field's message; otherwise exactly that field is set and the others and both lists are unchanged |
| MetarDecoder.MetarSkyLayerAsWritten | Sources/AvWeather/Requests/MetarRequest.swift:75-86 | as written, the layer exists exactly when a layer is reported; its base is the reported base; its cover is clr for CLR and skc for every other cover |
| MetarDecoder.IntIsNoCover | Sources/AvWeather/Requests/MetarRequest.swift:82 | a text that parses as an integer is never a sky-cover code |
| MetarDecoder.AsWrittenCoverIsClearOrSkc | Sources/AvWeather/Requests/MetarRequest.swift:80-82 | as written, every appended layer's cover is clr or skc |
| MetarDecoder.AsWrittenCounterexample | Sources/AvWeather/Requests/MetarRequest.swift:82 | SCT at 2500 ft is stored as skc as written; the corrected layer stores sct |
| MetarDecoder.MetarSkyLayer | Sources/AvWeather/Requests/MetarRequest.swift:75-86 | corrected: the as-written layer with its cover looked up from `sky_cover` (skc when unknown); it then coincides with the layer rule the TAF decoder and the legacy loader share |
| MetarDecoder.MetarRequest.ForStation | Sources/AvWeather/Requests/MetarRequest.swift:29-43 | the query is dataSource=metars, hoursBeforeNow (default 2) and stationString, plus `mostRecent=true` when asked |
| MetarDecoder.MetarRequest.DidStartElement | Sources/AvWeather/Requests/MetarRequest.swift:55-95 | `data` aborts with "Failed to parse METAR XML." or "Invalid station string." and leaves the buffer; `METAR` starts a fresh record; `sky_condition` appends the as-written layer (cover looked up from the base text) only inside a METAR; other starts clear the buffer only inside a METAR; the new delegate state is `MetarStart` of the old one; `queryParams` is unchanged |
| MetarDecoder.MetarRequest.DidEndElement | Sources/AvWeather/Requests/MetarRequest.swift:97-320 | `METAR` appends the current record and leaves the report; inside a report a known leaf is applied (or aborts); anything else changes nothing; the new delegate state is `MetarEnd` of the old one; `queryParams` is unchanged |
| MetarDecoder.MetarRequest.FoundCharacters | Sources/AvWeather/Requests/MetarRequest.swift:323-325 | the text is appended to the buffer and nothing else changes |
| MetarDecoder.MetarRequest.Decode | Sources/AvWeather/Requests/MetarRequest.swift:45-53 | the delegate ends in the state `Deliver` reaches by running the events through the callbacks with the abort flag cleared; fails with `parsing(message)` exactly when that run aborted or met a malformed document; otherwise returns that run's reports in document order, every clear layer at base 0 and, as written, every layer clr or skc; `queryParams` is unchanged |
| LegacyMetarLoader.LegacyLeafOf | Sources/AvWeather/MetarLoader.swift:253-336 | an element name is taken as a leaf only if it is that leaf's name |
| LegacyMetarLoader.LegacyLeafOfName | Sources/AvWeather/MetarLoader.swift:253-336 | each of the 15 leaves is recognised by its own element name, and the names are distinct |
| LegacyMetarLoader.NewMetar | Sources/AvWeather/MetarLoader.swift:28-45 | texts empty, no observation time, every Float NaN, every Int `Int.max`, no layers |
| LegacyMetarLoader.ApplyLegacyLeaf | Sources/AvWeather/MetarLoader.swift:252-337 | never fails: texts are stored; the time is whatever the formatter gives, possibly none; an Int or Float that does not convert keeps the old value; only that field changes |
| LegacyMetarLoader.LegacySkyLayer | Sources/AvWeather/MetarLoader.swift:220-230 | the reported layer: its cover is the `sky_cover` code, or skc when unknown; CLR has base 0 |
| LegacyMetarLoader.ParseFailureAsWritten | Sources/AvWeather/MetarLoader.swift:156-164 | as written, a non-empty message always gives kind invalidIcaoId; otherwise the parser's description or "Failed to parse METAR XML." with kind parseError |
| LegacyMetarLoader.ParseFailure | Sources/AvWeather/MetarLoader.swift:156-164 | corrected: a non-empty message is reported with the kind the delegate recorded; otherwise as written |
| LegacyMetarLoader.UnreadableCountKind | Sources/AvWeather/MetarLoader.swift:192-198 | the unreadable-count abort is reported as invalidIcaoId as written, and as parseError corrected |
| LegacyMetarLoader.ParseFailureAgrees | Sources/AvWeather/MetarLoader.swift:156-164 | both versions agree for an empty message and for the zero-results abort |
| LegacyMetarLoader.MetarLoader.ForIcaoId | Sources/AvWeather/MetarLoader.swift:115-118 | a fresh loader has no reports, is not loaded, has no current item and no recorded error |
| LegacyMetarLoader.MetarLoader.DidStartElement | Sources/AvWeather/MetarLoader.swift:190-237 | `data` aborts, recording "Failed to parse METAR XML."/parseError or "Invalid ICAO ID."/invalidIcaoId; `METAR` starts a fresh item; `sky_condition` inside a METAR appends the layer; a readable count and other starts clear the buffer inside a METAR; the new delegate state is `LegacyStart` of the old one |
| LegacyMetarLoader.MetarLoader.DidEndElement | Sources/AvWeather/MetarLoader.swift:239-338 | `METAR` appends the current item, and traps when there is none; inside a METAR a known leaf is applied leniently; nothing else changes; the new delegate state, and the trap, are `LegacyEnd` of the old one |
| LegacyMetarLoader.MetarLoader.FoundCharacters | Sources/AvWeather/MetarLoader.swift:341-343 | the text is appended to the buffer and nothing else changes |
| LegacyMetarLoader.MetarLoader.Parse | Sources/AvWeather/MetarLoader.swift:154-156 | the delegate ends in the state `Deliver` reaches from its current state, with the trap and the malformed document as halting points |
| LegacyMetarLoader.MetarLoader.Load | Sources/AvWeather/MetarLoader.swift:154-173 | the delegate ends in the state `Deliver` reaches with the abort flag cleared; the load traps exactly when that run trapped, and fails exactly when it aborted or met a malformed document without trapping; a failed parse reports the error as written (kind invalidIcaoId for any message the delegate set, whatever kind it recorded) and leaves `isDataLoaded`; a completed one sets `isDataLoaded` and delivers that run's reports, every clear layer at base 0 |
| JsonValues.AsNumbers | Sources/AvWeather/Models/Sigmet.swift:172 | `[Double]` decodes exactly when every item is a number, item by item |
| JsonValues.AsNumberArrays | Sources/AvWeather/Models/Sigmet.swift:168 | `[[Double]]` decodes exactly when every item is an array of numbers |
| JsonValues.NumberArray | Sources/AvWeather/Models/Sigmet.swift:188-189 | `[Double]` is written as an array of the same numbers in order |
| JsonValues.NumberArrayArray | Sources/AvWeather/Models/Sigmet.swift:190-191 | `[[Double]]` is written as an array of number arrays in order |
| JsonValues.NumbersRoundTrip | Sources/AvWeather/Models/Sigmet.swift:172-189 | a written `[Double]` reads back unchanged |
| JsonValues.NumberArraysRoundTrip | Sources/AvWeather/Models/Sigmet.swift:168-191 | a written `[[Double]]` reads back unchanged |
| SigmetModel.ChangeFromRaw | Sources/AvWeather/Models/Sigmet.swift:118-122 | only INTSF, NC and WKN have a case; any other text has none |
| SigmetModel.ChangeFromRawRaw | Sources/AvWeather/Models/Sigmet.swift:118-122 | each change is recognised by its raw value |
| SigmetModel.GeoTypeFromRaw | Sources/AvWeather/Models/Sigmet.swift:126-131 | only AREA, LINE, POINT and UNK have a case; any other text has none |
| SigmetModel.GeoTypeFromRawRaw | Sources/AvWeather/Models/Sigmet.swift:126-131 | each geometry kind is recognised by its raw value |
| SigmetModel.HazardFromRaw | Sources/AvWeather/Models/Sigmet.swift:134-153 | a text has a hazard exactly when it is one of the 16 raw values |
| SigmetModel.HazardRawDistinctInternational | Sources/AvWeather/Models/Sigmet.swift:135-145 | the 11 international hazard codes differ from every other code |
| SigmetModel.HazardRawDistinctUs | Sources/AvWeather/Models/Sigmet.swift:148-152 | the 5 US hazard codes differ from every other code |
| SigmetModel.HazardFromRawRaw | Sources/AvWeather/Models/Sigmet.swift:134-153 | each hazard is recognised by its own raw value, including "RDOACT CLD" and "MTN OBSCN" |
| SigmetModel.GeometryTypeFromRaw | Sources/AvWeather/Models/Sigmet.swift:209-213 | only LineString, Point and Polygon have a case |
| SigmetModel.GeometryTypeFromRawRaw | Sources/AvWeather/Models/Sigmet.swift:209-213 | each geometry type is recognised by its raw value |
| SigmetModel.SigmetText | Sources/AvWeather/Models/Sigmet.swift:26-28 | the text is `rawSigmet` if present, else `rawAirSigmet`, else "" |
| SigmetModel.SigmetTypeOf | Sources/AvWeather/Models/Sigmet.swift:31-33 | international exactly when `rawSigmet` is present, even if empty |
| SigmetModel.TextFollowsType | Sources/AvWeather/Models/Sigmet.swift:26-33 | an international report's text is its `rawSigmet`; a US report's text is its `rawAirSigmet` or "" |
| SigmetModel.SeverityValue | Sources/AvWeather/Models/Sigmet.swift:86-88 | present exactly when `severity` is present and an integer literal |
| SigmetModel.SeverityOfInteger | Sources/AvWeather/Models/Sigmet.swift:86-90 | a severity written as an integer yields that integer |
| SigmetModel.RenamedKeys | Sources/AvWeather/Models/Sigmet.swift:103-116 | exactly icaoID, firID, seriesID, geometryType and change travel under another name (icaoId, firId, seriesId, geom, chng) |
| SigmetModel.PropertyKeyOf | Sources/AvWeather/Models/Sigmet.swift:103-116 | a member name maps to a property exactly when it is that property's wire key |
| SigmetModel.PropertyKeyOfWireKey | Sources/AvWeather/Models/Sigmet.swift:103-116 | the 24 wire keys are distinct: each reads back as its own property |
| SigmetModel.DecodeCoordinate | Sources/AvWeather/Models/Sigmet.swift:166-181 | fails with a type mismatch exactly when the value is not a number, a number array or an array of number arrays; a line is chosen only when the `[[Double]]` attempt failed |
| SigmetModel.EncodeCoordinate | Sources/AvWeather/Models/Sigmet.swift:183-193 | every written coordinate has one of the three decodable shapes |
| SigmetModel.EncodeDecodedCoordinate | Sources/AvWeather/Models/Sigmet.swift:166-193 | whatever decodes is written back as the same JSON value |
| SigmetModel.CoordinateRoundTrip | Sources/AvWeather/Models/Sigmet.swift:166-193 | every coordinate except the empty line decodes back to itself |
| SigmetModel.EmptyLineReadsAsPolygon | Sources/AvWeather/Models/Sigmet.swift:168-173 | the empty line is written as `[]`, which decodes as the empty polygon |
| SigmetDecoder.ValidFrom | Sources/AvWeather/Requests/SigmetRequest.swift:75-77 | the sort key is `validTimeFrom`, or `distantPast` when it is missing |
| SigmetDecoder.SigmetRequest.constructor | Sources/AvWeather/Requests/SigmetRequest.swift:32-48 | the type defaults to `.international`; the service path is the SIGMET path for `.usOnly` and the international one otherwise; the query is empty |
| SigmetDecoder.SigmetRequest.Decode | Sources/AvWeather/Requests/SigmetRequest.swift:61-86 | a decoder failure becomes `parsing(localizedDescription)` with no list; otherwise it drops the first feature when the last is international, whatever its own family, and returns a permutation of the rest by non-increasing validity start, with length n or n-1 |

## Findings

| source | as written | input that shows it | evidently intended | confidence | as-written member | corrected member |
|---|---|---|---|---|---|---|
| Sources/AvWeather/Requests/MetarRequest.swift:82 | the cover is looked up from `baseStr` (the base height), never from `skyCover`, so every non-CLR layer is stored as skc | `<sky_condition sky_cover="SCT" cloud_base_ft_agl="2500"/>` inside a METAR | look the cover up from `sky_cover`, as the TAF decoder (TAFRequest.swift:104) and the legacy loader (MetarLoader.swift:226) do | high; not executed | MetarDecoder.AsWrittenCounterexample | MetarDecoder.MetarSkyLayer |
| Sources/AvWeather/MetarLoader.swift:159-161 | any non-empty `parsingErrorMessage` yields kind invalidIcaoId; the kind the delegate recorded in `parsingErrorType` is never read | `<data>` without `num_results`: the delegate records "Failed to parse METAR XML." with kind parseError, and the loader reports invalidIcaoId | report the recorded kind | medium; not executed | LegacyMetarLoader.UnreadableCountKind | LegacyMetarLoader.ParseFailure |

The decoder classes model the code as written: `MetarRequest.DidStartElement` adds `MetarSkyLayerAsWritten`, and `MetarLoader.Load` reports `ParseFailureAsWritten`. The corrected members sit beside them, each with its lemma, and state the evidently intended behaviour.

## Left out

- Network and transport are left out: `AWCClient`, `ADDSClient`, `MetarLoader.getData` (MetarLoader.swift:120-152, 174-184), HTTP status and mime checks. The loader's `Load` starts where the data has arrived.
- `XMLParser` tokenisation is left out: the decoders take the event sequence. A parser failure is a `Malformed` event, and for the legacy loader `parserError` is a parameter.
- `JSONDecoder` is left out. The synthesised decoding of `Sigmet`, `SigmetProperties`, `SigmetGeometry` and `SigmetResponse` and the ISO 8601 date strategy are not modelled. `SigmetRequest.Decode` takes the decoder's outcome, either the response or a failure with its `localizedDescription`. `CodingKeys` is modelled as the key mapping only.
- Floating point is left out: Double and Float values are opaque, and `Double(String)`, `Float(String)` and the ISO 8601 formatter are uninterpreted partial functions. NaN is one fixed opaque Float, so a NaN that `Float(String)` itself produces is not told apart.
- Primitives.ParseInt: does not reject values outside the 64-bit range, where `Int(String)` returns nil.
- `print`/`dump` diagnostics are left out (TAFRequest.swift:114-127 and 153, SigmetRequest.swift:82, the `#if DEBUG` prints in MetarLoader.swift); they are side output only. The condition groups and `warning` are modelled as changing nothing.
- The `UUID` ids of the sky-condition records are left out: they are nondeterministic and take no part in decoding.
- The delegate callbacks, `@Published`/`ObservableObject`, the `delegate` field and `handleSessionError` are left out; they are UI binding. `Load` returns the outcome the delegate would be told.
- `MetarLoader.swift:246`: a `METAR` end with no current item is a force-unwrap crash. It is modelled as the `Trapped` outcome, which ends the load.
- `Metar.QualityControlFlags` keeps only its raw values: no decoder ever parses flags.
- `Sigmet.SigmetGeometry.Coordinate.getCoords` (Sigmet.swift:195-204) is left out: it returns `Any`.
- Strings are compared as sequences of characters. Swift's `String ==`, used by every `init(rawValue:)` and every element-name test, also equates canonically equivalent strings ("B\u{212A}N" matches `.bkn`); Unicode normalisation is not modelled.
- `TAFRequest.init(forStation:)` (TAFRequest.swift:31-33) is `ForStations` applied to a one-element list.
- TafDecoder.TafRequest.Decode: the order among reports with equal issue times is not stated, since Swift's `sorted` does not promise one. The same holds for SigmetDecoder.SigmetRequest.Decode and equal validity starts.
