/**
 * The legacy METAR loader (MetarLoader.swift): its own observation record,
 * with NaN and `Int.max` sentinels for unreported values, and an XMLParser
 * delegate that skips any text it cannot convert instead of aborting.
 * Only a bad `num_results` aborts; the error handed to the loader's
 * delegate then carries an error kind.
 */
module LegacyMetarLoader {
  import opened Primitives
  import opened XmlEvents
  import opened SkyCover

  /** `Float.nan`, the sentinel of an unreported Float field (the canonical quiet NaN). */
  const FloatNaN: Float := Float(0x7FC0_0000)

  /** The loader's `SkyCondition`: a cover and a base in feet AGL. */
  datatype SkyCondition = SkyCondition(skyCover: SkyCoverConditions, base: int)

  /** The loader's `Metar`. */
  datatype Metar = Metar(
    rawText: string,
    stationId: string,
    observationTime: Option<Date>,
    latitude: Float,
    longitude: Float,
    tempC: Float,
    dewpointC: Float,
    windDirDegrees: int,
    windSpeed: int,
    windGust: int,
    visibility: Float,
    altimeter: Float,
    seaLevelPressure: Float,
    skyCondition: seq<SkyCondition>,
    flightCategory: string,
    threeHourPressureTendency: Float)

  /** `MetarLoaderError.ErrorKind`. */
  datatype ErrorKind = InvalidIcaoId | InvalidUrl | ServerError | ParseError | GenericError

  datatype MetarLoaderError = MetarLoaderError(message: string, kind: ErrorKind)

  /** A field of an observation that an element can set, with its value. */
  datatype LegacyValue =
    | Chars(s: string)
    | When(od: Option<Date>)
    | Whole(n: int)
    | Real(x: Float)

  /** The leaf elements of a `METAR` group that the loader reads. */
  datatype LegacyLeaf =
    | RawText | StationId | ObservationTime | Latitude | Longitude | TempC | DewpointC
    | WindDirDegrees | WindSpeedKt | WindGustKt | VisibilityStatuteMi | AltimInHg
    | SeaLevelPressureMb | ThreeHrPressureTendencyMb | FlightCategory

  function LegacyLeafName(l: LegacyLeaf): string {
    match l
    case RawText => "raw_text"
    case StationId => "station_id"
    case ObservationTime => "observation_time"
    case Latitude => "latitude"
    case Longitude => "longitude"
    case TempC => "temp_c"
    case DewpointC => "dewpoint_c"
    case WindDirDegrees => "wind_dir_degrees"
    case WindSpeedKt => "wind_speed_kt"
    case WindGustKt => "wind_gust_kt"
    case VisibilityStatuteMi => "visibility_statute_mi"
    case AltimInHg => "altim_in_hg"
    case SeaLevelPressureMb => "sea_level_pressure_mb"
    case ThreeHrPressureTendencyMb => "three_hr_pressure_tendency_mb"
    case FlightCategory => "flight_category"
  }

  /** The leaf a `METAR` child element's name denotes, if any. */
  function LegacyLeafOf(name: string): (r: Option<LegacyLeaf>)
    ensures r.Some? ==> LegacyLeafName(r.value) == name
  {
    match name
    case "raw_text" => Some(RawText)
    case "station_id" => Some(StationId)
    case "observation_time" => Some(ObservationTime)
    case "latitude" => Some(Latitude)
    case "longitude" => Some(Longitude)
    case "temp_c" => Some(TempC)
    case "dewpoint_c" => Some(DewpointC)
    case "wind_dir_degrees" => Some(WindDirDegrees)
    case "wind_speed_kt" => Some(WindSpeedKt)
    case "wind_gust_kt" => Some(WindGustKt)
    case "visibility_statute_mi" => Some(VisibilityStatuteMi)
    case "altim_in_hg" => Some(AltimInHg)
    case "sea_level_pressure_mb" => Some(SeaLevelPressureMb)
    case "three_hr_pressure_tendency_mb" => Some(ThreeHrPressureTendencyMb)
    case "flight_category" => Some(FlightCategory)
    case _ => None
  }

  /** Every leaf is recognised by its own element name, and no two leaves share one. */
  lemma LegacyLeafOfName(l: LegacyLeaf)
    ensures LegacyLeafOf(LegacyLeafName(l)) == Some(l)
    ensures forall m :: LegacyLeafName(m) == LegacyLeafName(l) ==> m == l
  {
    match l
    case RawText => case StationId => case ObservationTime => case Latitude =>
    case Longitude => case TempC => case DewpointC => case WindDirDegrees =>
    case WindSpeedKt => case WindGustKt => case VisibilityStatuteMi => case AltimInHg =>
    case SeaLevelPressureMb => case ThreeHrPressureTendencyMb => case FlightCategory =>
  }

  /** What a leaf's text is converted to. */
  datatype LeafKind = TextLeaf | DateLeaf | IntLeaf | FloatLeaf

  function KindOf(l: LegacyLeaf): LeafKind {
    match l
    case RawText => TextLeaf
    case StationId => TextLeaf
    case FlightCategory => TextLeaf
    case ObservationTime => DateLeaf
    case WindDirDegrees => IntLeaf
    case WindSpeedKt => IntLeaf
    case WindGustKt => IntLeaf
    case _ => FloatLeaf
  }

  /** The field of `m` that the leaf element `l` fills. */
  function LegacyField(m: Metar, l: LegacyLeaf): LegacyValue {
    match l
    case RawText => Chars(m.rawText)
    case StationId => Chars(m.stationId)
    case ObservationTime => When(m.observationTime)
    case Latitude => Real(m.latitude)
    case Longitude => Real(m.longitude)
    case TempC => Real(m.tempC)
    case DewpointC => Real(m.dewpointC)
    case WindDirDegrees => Whole(m.windDirDegrees)
    case WindSpeedKt => Whole(m.windSpeed)
    case WindGustKt => Whole(m.windGust)
    case VisibilityStatuteMi => Real(m.visibility)
    case AltimInHg => Real(m.altimeter)
    case SeaLevelPressureMb => Real(m.seaLevelPressure)
    case ThreeHrPressureTendencyMb => Real(m.threeHourPressureTendency)
    case FlightCategory => Chars(m.flightCategory)
  }

  /**
   * `Metar()`: text fields empty, no observation time, every Float NaN,
   * every Int `Int.max`, no layers — so an unreported value is told apart
   * from a reported 0.
   */
  function NewMetar(): (m: Metar)
    ensures forall l :: KindOf(l) == TextLeaf ==> LegacyField(m, l) == Chars("")
    ensures forall l :: KindOf(l) == FloatLeaf ==> LegacyField(m, l) == Real(FloatNaN)
    ensures forall l :: KindOf(l) == IntLeaf ==> LegacyField(m, l) == Whole(IntMax)
    ensures LegacyField(m, ObservationTime) == When(None)
    ensures m.skyCondition == []
  {
    Metar("", "", None, FloatNaN, FloatNaN, FloatNaN, FloatNaN, IntMax, IntMax, IntMax,
          FloatNaN, FloatNaN, FloatNaN, [], "", FloatNaN)
  }

  /** `m` with the Float field of leaf `l` set to `x`, and nothing else changed. */
  function SetReal(m: Metar, l: LegacyLeaf, x: Float): (r: Metar)
    requires KindOf(l) == FloatLeaf
    ensures LegacyField(r, l) == Real(x)
    ensures forall other :: other != l ==> LegacyField(r, other) == LegacyField(m, other)
    ensures r.skyCondition == m.skyCondition
  {
    match l
    case Latitude => m.(latitude := x)
    case Longitude => m.(longitude := x)
    case TempC => m.(tempC := x)
    case DewpointC => m.(dewpointC := x)
    case VisibilityStatuteMi => m.(visibility := x)
    case AltimInHg => m.(altimeter := x)
    case SeaLevelPressureMb => m.(seaLevelPressure := x)
    case ThreeHrPressureTendencyMb => m.(threeHourPressureTendency := x)
  }

  /**
   * The end of a leaf element inside a `METAR` group, which never fails:
   * text fields (the flight category included, unvalidated) take the text;
   * the observation time becomes the converted date or nil; an Int or Float
   * field takes the converted value, and keeps what it had when the text
   * does not convert. Exactly the named field can change; the layers never do.
   */
  function ApplyLegacyLeaf(m: Metar, l: LegacyLeaf, text: string, conv: Conversions): (r: Metar)
    ensures r.skyCondition == m.skyCondition
    ensures forall other :: other != l ==> LegacyField(r, other) == LegacyField(m, other)
    ensures LegacyField(r, l) ==
      match KindOf(l)
      case TextLeaf => Chars(text)
      case DateLeaf => When(conv.isoDate(text))
      case IntLeaf => if ParseInt(text).Some? then Whole(ParseInt(text).value) else LegacyField(m, l)
      case FloatLeaf => if conv.float(text).Some? then Real(conv.float(text).value) else LegacyField(m, l)
  {
    match l
    case RawText => m.(rawText := text)
    case StationId => m.(stationId := text)
    case FlightCategory => m.(flightCategory := text)
    case ObservationTime => m.(observationTime := conv.isoDate(text))
    case WindDirDegrees =>
      (match ParseInt(text) case Some(n) => m.(windDirDegrees := n) case None => m)
    case WindSpeedKt =>
      (match ParseInt(text) case Some(n) => m.(windSpeed := n) case None => m)
    case WindGustKt =>
      (match ParseInt(text) case Some(n) => m.(windGust := n) case None => m)
    case _ =>
      (match conv.float(text) case Some(x) => SetReal(m, l, x) case None => m)
  }

  /** A reported layer, with the cover taken from `sky_cover` (MetarLoader.swift:220-228). */
  function LegacySkyLayer(attrs: map<string, string>): (r: Option<SkyCondition>)
    ensures r.Some? <==> ReportedLayer(attrs).Some?
    ensures r.Some? ==> r.value.base == ReportedLayer(attrs).value.1
    ensures r.Some? ==> r.value.skyCover == FromRaw(attrs["sky_cover"]).GetOr(Skc)
    ensures r.Some? && r.value.skyCover == Clr ==> r.value.base == 0
  {
    match ReportedLayer(attrs)
    case None => None
    case Some((cover, base)) => Some(SkyCondition(cover, base))
  }

  // ---------------------------------------------------------------------
  // The error handed to the loader's delegate when the parse fails
  // (MetarLoader.swift:156-167).

  /**
   * As written: any message the delegate set yields kind `invalidIcaoId`,
   * and the kind the delegate recorded beside it is never read; with no
   * message, the parser's own description (or a fixed text) with kind
   * `parseError`.
   */
  function ParseFailureAsWritten(message: string, recordedKind: Option<ErrorKind>, parserError: Option<string>): (e: MetarLoaderError)
    ensures message != "" ==> e == MetarLoaderError(message, InvalidIcaoId)
    ensures message == "" ==> e == MetarLoaderError(parserError.GetOr("Failed to parse METAR XML."), ParseError)
  {
    if message != "" then MetarLoaderError(message, InvalidIcaoId)
    else MetarLoaderError(parserError.GetOr("Failed to parse METAR XML."), ParseError)
  }

  /** The kind the delegate records is the one the error carries; without one, `parseError`. */
  function ParseFailure(message: string, recordedKind: Option<ErrorKind>, parserError: Option<string>): (e: MetarLoaderError)
    ensures message != "" ==> e.message == message && e.kind == recordedKind.GetOr(ParseError)
    ensures message == "" ==> e.kind == ParseError && (e.message == parserError.GetOr("Failed to parse METAR XML."))
  {
    if message != "" then MetarLoaderError(message, recordedKind.GetOr(ParseError))
    else MetarLoaderError(parserError.GetOr("Failed to parse METAR XML."), ParseError)
  }

  /**
   * An unreadable `num_results` records "Failed to parse METAR XML." with
   * kind `parseError`; as written the error reaches the loader's delegate
   * as `invalidIcaoId`, once corrected as `parseError`.
   */
  lemma {:induction false} UnreadableCountKind(parserError: Option<string>)
    ensures ParseFailureAsWritten("Failed to parse METAR XML.", Some(ParseError), parserError).kind == InvalidIcaoId
    ensures ParseFailure("Failed to parse METAR XML.", Some(ParseError), parserError) ==
      MetarLoaderError("Failed to parse METAR XML.", ParseError)
  {
  }

  /** The two choices agree wherever the recorded kind is `invalidIcaoId` or there is no message. */
  lemma {:induction false} ParseFailureAgrees(message: string, recordedKind: Option<ErrorKind>, parserError: Option<string>)
    requires message == "" || recordedKind == Some(InvalidIcaoId)
    ensures ParseFailure(message, recordedKind, parserError) == ParseFailureAsWritten(message, recordedKind, parserError)
  {
  }

  /** What one run of the parser over a response body leads to. */
  datatype LoadOutcome =
    | Loaded(metars: seq<Metar>)          // delegate told `didDownloadMetars`
    | Failed(error: MetarLoaderError)     // delegate told `didFailDownloadWithError`
    | Trapped                             // `currentItem!` found nil: the process stops

  /** The delegate's position in the document: `none` or `metar` in the source. */
  datatype LoaderState = Outside | InMetar

  ghost predicate ClearLayersGrounded(layers: seq<SkyCondition>) {
    forall i :: 0 <= i < |layers| ==> layers[i].skyCover == Clr ==> layers[i].base == 0
  }

  ghost predicate AllGrounded(ms: seq<Metar>) {
    forall i :: 0 <= i < |ms| ==> ClearLayersGrounded(ms[i].skyCondition)
  }

  /**
   * The delegate's mutable state, as one value; `trapped` records that a
   * force-unwrap of `currentItem` found nil, which stops the process.
   */
  datatype LoaderDelegate = LoaderDelegate(
    currentState: LoaderState,
    currentItem: Option<Metar>,
    buffer: string,
    parsingErrorMessage: string,
    parsingErrorType: Option<ErrorKind>,
    metars: seq<Metar>,
    aborted: bool,
    trapped: bool)

  /** What `didStartElement` does to the delegate's state. */
  function LegacyStart(s: LoaderDelegate, name: string, attrs: map<string, string>): LoaderDelegate {
    if name == "data" && CheckNumResults(attrs).Unreadable? then
      s.(parsingErrorMessage := "Failed to parse METAR XML.", parsingErrorType := Some(ParseError), aborted := true)
    else if name == "data" && CheckNumResults(attrs).NoResults? then
      s.(parsingErrorMessage := "Invalid ICAO ID.", parsingErrorType := Some(InvalidIcaoId), aborted := true)
    else if name == "METAR" then s.(currentState := InMetar, currentItem := Some(NewMetar()))
    else if s.currentState == InMetar && name == "sky_condition" then
      match LegacySkyLayer(attrs)
      case None => s
      case Some(layer) =>
        match s.currentItem
        case None => s.(trapped := true)
        case Some(m) => s.(currentItem := Some(m.(skyCondition := m.skyCondition + [layer])))
    else if s.currentState == InMetar then s.(buffer := "")
    else s
  }

  /** What `didEndElement` does to the delegate's state. */
  function LegacyEnd(conv: Conversions, s: LoaderDelegate, name: string): LoaderDelegate {
    if name == "METAR" then
      match s.currentItem
      case None => s.(trapped := true)
      case Some(m) => s.(metars := s.metars + [m], currentState := Outside)
    else if s.currentState == Outside then s
    else
      match LegacyLeafOf(name)
      case None => s
      case Some(l) =>
        match s.currentItem
        case None => s.(trapped := true)
        case Some(m) => s.(currentItem := Some(ApplyLegacyLeaf(m, l, s.buffer, conv)))
  }

  /** One callback of the parser, applied to the delegate's state. */
  function LegacyStep(conv: Conversions, s: LoaderDelegate, e: Event): LoaderDelegate {
    match e
    case Start(name, attrs) => LegacyStart(s, name, attrs)
    case End(name) => LegacyEnd(conv, s, name)
    case Text(chars) => s.(buffer := s.buffer + chars)
    case Malformed => s
  }

  /** The delegate has called `abortParsing()`, or the process has trapped. */
  function LegacyHalted(s: LoaderDelegate): bool { s.aborted || s.trapped }

  class MetarLoader {
    /** The station ICAO id the loader was created for. */
    const id: string
    const conv: Conversions

    var metars: seq<Metar>
    var isDataLoaded: bool

    var currentState: LoaderState
    var currentItem: Option<Metar>
    var buffer: string
    var parsingErrorMessage: string
    var parsingErrorType: Option<ErrorKind>
    /** Set when the delegate calls `abortParsing()` on the running parse. */
    var aborted: bool

    /**
     * Inside a METAR there is always a current item, so the force-unwraps of
     * the leaf and layer handlers are safe; every clear layer has base 0.
     */
    ghost predicate Valid()
      reads this
    {
      (currentState == InMetar ==> currentItem.Some?) &&
      (currentItem.Some? ==> ClearLayersGrounded(currentItem.value.skyCondition)) &&
      AllGrounded(metars) &&
      (parsingErrorMessage != "" <==> parsingErrorType.Some?)
    }

    function Snapshot(): LoaderDelegate
      reads this
    {
      LoaderDelegate(currentState, currentItem, buffer, parsingErrorMessage, parsingErrorType, metars, aborted, false)
    }

    /** `init(forIcaoId:session:)`; the session is part of the network layer. */
    constructor ForIcaoId(id: string, conv: Conversions)
      ensures Valid()
      ensures this.id == id && this.conv == conv
      ensures metars == [] && !isDataLoaded && currentState == Outside && currentItem.None?
      ensures buffer == "" && parsingErrorMessage == "" && parsingErrorType.None? && !aborted
    {
      this.id := id;
      this.conv := conv;
      metars := [];
      isDataLoaded := false;
      currentState := Outside;
      currentItem := None;
      buffer := "";
      parsingErrorMessage := "";
      parsingErrorType := None;
      aborted := false;
    }

    /** `parser(_:didStartElement:...)`. */
    method DidStartElement(name: string, attrs: map<string, string>)
      requires Valid()
      modifies this
      ensures Valid()
      ensures Snapshot() == LegacyStart(old(Snapshot()), name, attrs)
      ensures unchanged(this`metars, this`isDataLoaded)
      ensures name == "data" && CheckNumResults(attrs).Unreadable? ==>
        aborted && parsingErrorMessage == "Failed to parse METAR XML." && parsingErrorType == Some(ParseError) &&
        unchanged(this`currentState, this`currentItem, this`buffer)
      ensures name == "data" && CheckNumResults(attrs).NoResults? ==>
        aborted && parsingErrorMessage == "Invalid ICAO ID." && parsingErrorType == Some(InvalidIcaoId) &&
        unchanged(this`currentState, this`currentItem, this`buffer)
      ensures name == "METAR" ==>
        currentState == InMetar && currentItem == Some(NewMetar()) &&
        unchanged(this`buffer, this`aborted, this`parsingErrorMessage, this`parsingErrorType)
      ensures name == "sky_condition" && old(currentState) == InMetar ==>
        unchanged(this`currentState, this`buffer, this`aborted, this`parsingErrorMessage, this`parsingErrorType) &&
        currentItem == Some(old(currentItem).value.(skyCondition := old(currentItem).value.skyCondition +
          match LegacySkyLayer(attrs) case Some(layer) => [layer] case None => []))
      ensures (name == "data" && CheckNumResults(attrs).Count?) || (name != "data" && name != "METAR" && name != "sky_condition") ||
              (name == "sky_condition" && old(currentState) == Outside) ==>
        unchanged(this`currentState, this`currentItem, this`aborted, this`parsingErrorMessage, this`parsingErrorType) &&
        buffer == if old(currentState) == InMetar then "" else old(buffer)
    {
      if name == "data" {
        match CheckNumResults(attrs) {
          case Unreadable =>
            parsingErrorMessage := "Failed to parse METAR XML.";
            parsingErrorType := Some(ParseError);
            aborted := true;
            return;
          case NoResults =>
            // the service answers an unknown airport id with zero results
            parsingErrorMessage := "Invalid ICAO ID.";
            parsingErrorType := Some(InvalidIcaoId);
            aborted := true;
            return;
          case Count(_) =>
        }
      }
      // the start of a METAR group
      if name == "METAR" {
        currentState := InMetar;
        currentItem := Some(NewMetar());
        return;
      }
      if currentState == InMetar && name == "sky_condition" {
        var layer := LegacySkyLayer(attrs);
        if layer.Some? {
          currentItem := Some(currentItem.value.(skyCondition := currentItem.value.skyCondition + [layer.value]));
        } else {
          assert currentItem.value.skyCondition + [] == currentItem.value.skyCondition;
        }
        return;
      }
      // a new element under METAR: clear the text buffer
      if currentState == InMetar {
        buffer := "";
        return;
      }
    }

    /**
     * `parser(_:didEndElement:...)`. Returns true when `currentItem!` traps:
     * the end of a METAR group arrives while no METAR has ever started.
     */
    method DidEndElement(name: string) returns (trap: bool)
      requires Valid()
      modifies this
      ensures Valid()
      ensures Snapshot().(trapped := trap) == LegacyEnd(conv, old(Snapshot()), name)
      ensures unchanged(this`buffer, this`aborted, this`parsingErrorMessage, this`parsingErrorType, this`isDataLoaded)
      ensures trap <==> name == "METAR" && old(currentItem).None?
      ensures trap ==> unchanged(this)
      ensures name == "METAR" && !trap ==>
        metars == old(metars) + [old(currentItem).value] && currentState == Outside &&
        unchanged(this`currentItem)
      ensures name != "METAR" ==>
        unchanged(this`currentState, this`metars) &&
        if old(currentState) == Outside || LegacyLeafOf(name).None? then unchanged(this`currentItem)
        else currentItem == Some(ApplyLegacyLeaf(old(currentItem).value, LegacyLeafOf(name).value, old(buffer), conv))
    {
      // the end of the METAR group: save the observation
      if name == "METAR" {
        if currentItem.None? {
          return true;
        }
        metars := metars + [currentItem.value];
        currentState := Outside;
        return false;
      }
      if currentState == InMetar {
        var leaf := LegacyLeafOf(name);
        if leaf.Some? {
          currentItem := Some(ApplyLegacyLeaf(currentItem.value, leaf.value, buffer, conv));
        }
      }
      return false;
    }

    /** `parser(_:foundCharacters:)`: text accumulates in the buffer. */
    method FoundCharacters(chars: string)
      requires Valid()
      modifies this`buffer
      ensures Valid()
      ensures Snapshot() == LegacyStep(conv, old(Snapshot()), Text(chars))
      ensures buffer == old(buffer) + chars
    {
      buffer := buffer + chars;
    }

    /**
     * `parser.parse()`: delivers the events to the delegate in document order
     * until it aborts, a force-unwrap traps, or the document turns out
     * malformed.
     */
    method Parse(events: seq<Event>) returns (failed: bool, trapped: bool)
      requires Valid()
      modifies this
      ensures Valid()
      ensures old(metars) <= metars && isDataLoaded == old(isDataLoaded)
      ensures Deliver(conv, LegacyStep, LegacyHalted, old(Snapshot()), events) == Delivery(Snapshot().(trapped := trapped), failed)
    {
      ghost var s0 := Snapshot();
      failed := false;
      trapped := false;
      var i := 0;
      while i < |events| && !aborted && !failed && !trapped
        invariant 0 <= i <= |events|
        invariant Valid()
        invariant old(metars) <= metars
        invariant isDataLoaded == old(isDataLoaded)
        invariant Deliver(conv, LegacyStep, LegacyHalted, s0, events[..i]) == Delivery(Snapshot().(trapped := trapped), failed)
      {
        DeliverNext(conv, LegacyStep, LegacyHalted, s0, events, i);
        match events[i] {
          case Start(name, attrs) => DidStartElement(name, attrs);
          case End(name) => trapped := DidEndElement(name);
          case Text(chars) => FoundCharacters(chars);
          case Malformed => failed := true;
        }
        assert events[..i + 1] == events[..i] + [events[i]];
        i := i + 1;
      }
      if i < |events| {
        DeliverHalts(conv, LegacyStep, LegacyHalted, s0, events, i);
      } else {
        assert events[..i] == events;
      }
    }

    /**
     * The XML branch of `getData()` (MetarLoader.swift:154-173): a fresh parse
     * of the response body's events. `parserError` is the localized
     * description of the parser's error, if it has one. A parse that does not
     * complete reports an error built from what the delegate recorded; one
     * that completes marks the data loaded and reports every observation
     * collected so far.
     */
    method Load(events: seq<Event>, parserError: Option<string>) returns (outcome: LoadOutcome)
      requires Valid()
      modifies this
      ensures Valid()
      ensures old(metars) <= metars
      ensures outcome.Failed? <==> (aborted || Malformed in events) && !outcome.Trapped?
      ensures outcome.Failed? ==> outcome.error == ParseFailureAsWritten(parsingErrorMessage, parsingErrorType, parserError)
      ensures outcome.Loaded? ==> outcome.metars == metars && isDataLoaded && AllGrounded(outcome.metars)
      ensures !outcome.Loaded? ==> isDataLoaded == old(isDataLoaded)
      ensures var run := Deliver(conv, LegacyStep, LegacyHalted, old(Snapshot()).(aborted := false), events);
        Snapshot() == run.state.(trapped := false) &&
        (outcome.Trapped? <==> run.state.trapped) &&
        (outcome.Failed? <==> !run.state.trapped && (run.malformed || run.state.aborted)) &&
        (outcome.Loaded? ==> outcome.metars == run.state.metars)
    {
      aborted := false;
      var failed, trapped := Parse(events);
      if trapped {
        return Trapped;
      }
      if aborted || failed {
        return Failed(ParseFailureAsWritten(parsingErrorMessage, parsingErrorType, parserError));
      }
      isDataLoaded := true;
      return Loaded(metars);
    }
  }
}
