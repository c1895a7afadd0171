/**
 * The TAF request's XML decoder (Requests/TAFRequest.swift): an XMLParser
 * delegate with three states that fills forecast periods into the current
 * report, reports into its output list, and sorts that list latest issue
 * first once the document has been parsed.
 */
module TafDecoder {
  import opened Primitives
  import opened XmlEvents
  import opened SkyCover
  import opened TafModel
  import opened AvWeatherErrors
  import opened Sorting

  // ---------------------------------------------------------------------
  // What each leaf element holds, and the message its conversion failure
  // aborts with.

  const TafDateLeaves: set<TafLeaf> := {IssueTime, BulletinTime, ValidTimeFrom, ValidTimeTo}
  const TafDoubleLeaves: set<TafLeaf> := {Latitude, Longitude, ElevationM}

  /** The message a TAF leaf whose text does not convert aborts the parse with. */
  function TafLeafMessage(l: TafLeaf): string {
    match l
    case Latitude => "Failed to parse latitude."
    case Longitude => "Failed to parse longitude."
    case ElevationM => "Failed to parse station elevation."
    case _ => "Failed to parse date from TAF XML."
  }

  const ForecastDateLeaves: set<ForecastLeaf> := {FcstTimeFrom, FcstTimeTo, TimeBecoming}
  const ForecastIntLeaves: set<ForecastLeaf> := {
    Probability, WindDirDegrees, WindSpeedKt, WindGustKt,
    WindShearDirDegrees, WindShearSpeedKt, WindShearHgtFtAgl}
  const ForecastDoubleLeaves: set<ForecastLeaf> := {VisibilityStatuteMi, AltimInHg, VertVisFt}

  /** The message a forecast leaf whose text does not convert aborts the parse with. */
  function ForecastLeafMessage(l: ForecastLeaf): string {
    match l
    case Change => "Failed to parse Forecast change indicator."
    case Probability => "Failed to parse probability."
    case WindDirDegrees => "Failed to parse wind direction."
    case WindSpeedKt => "Failed to parse wind speed."
    case WindGustKt => "Failed to parse wind gust."
    case WindShearDirDegrees => "Failed to parse wind shear direction."
    case WindShearSpeedKt => "Failed to parse wind shear speed."
    case WindShearHgtFtAgl => "Failed to parse wind shear height."
    case VisibilityStatuteMi => "Failed to parse visbility."
    case AltimInHg => "Failed to parse altimeter inch Hg."
    case VertVisFt => "Failed to parse vertical visbility."
    case _ => "Failed to parse date from Forecast XML."
  }

  /**
   * The end of a leaf element directly under `TAF`: text fields take the
   * text, dates and Doubles must convert or the parse aborts with the
   * field's message; exactly the named field changes, and the forecast
   * periods are never touched.
   */
  function ApplyTafLeaf(t: TAF, l: TafLeaf, text: string, conv: Conversions): (r: LeafOutcome<TAF>)
    ensures r.Abort? <==>
      (l in TafDateLeaves && conv.isoDate(text).None?) ||
      (l in TafDoubleLeaves && conv.double(text).None?)
    ensures r.Abort? ==> r.message == TafLeafMessage(l)
    ensures r.Assign? ==> r.value.forecast == t.forecast
    ensures r.Assign? ==> forall other :: other != l ==> TafField(r.value, other) == TafField(t, other)
    ensures r.Assign? ==>
      TafField(r.value, l) ==
        if l in TafDateLeaves then Instant(conv.isoDate(text).value)
        else if l in TafDoubleLeaves then Real(conv.double(text).value)
        else if l == Remarks then Remark(Some(text))
        else Chars(text)
  {
    match l
    case RawText => Assign(t.(rawText := text))
    case StationId => Assign(t.(stationId := text))
    case IssueTime =>
      (match conv.isoDate(text)
       case Some(d) => Assign(t.(issueTime := d))
       case None => Abort(TafLeafMessage(l)))
    case BulletinTime =>
      (match conv.isoDate(text)
       case Some(d) => Assign(t.(bulletinTime := d))
       case None => Abort(TafLeafMessage(l)))
    case ValidTimeFrom =>
      (match conv.isoDate(text)
       case Some(d) => Assign(t.(validTimeFrom := d))
       case None => Abort(TafLeafMessage(l)))
    case ValidTimeTo =>
      (match conv.isoDate(text)
       case Some(d) => Assign(t.(validTimeTo := d))
       case None => Abort(TafLeafMessage(l)))
    case Remarks => Assign(t.(remarks := Some(text)))
    case Latitude =>
      (match conv.double(text)
       case Some(x) => Assign(t.(latitude := x))
       case None => Abort(TafLeafMessage(l)))
    case Longitude =>
      (match conv.double(text)
       case Some(x) => Assign(t.(longitude := x))
       case None => Abort(TafLeafMessage(l)))
    case ElevationM =>
      (match conv.double(text)
       case Some(x) => Assign(t.(elevationM := x))
       case None => Abort(TafLeafMessage(l)))
  }

  /**
   * The end of a leaf element inside a `forecast` group: as for the report,
   * with Int fields read by `Int(String)` and a change indicator that must be
   * one of TEMPO, BECMG, FM or PROB. The period's lists are never touched.
   */
  function ApplyForecastLeaf(f: Forecast, l: ForecastLeaf, text: string, conv: Conversions): (r: LeafOutcome<Forecast>)
    ensures r.Abort? <==>
      (l in ForecastDateLeaves && conv.isoDate(text).None?) ||
      (l in ForecastIntLeaves && ParseInt(text).None?) ||
      (l in ForecastDoubleLeaves && conv.double(text).None?) ||
      (l == Change && ChangeIndicatorFromRaw(text).None?)
    ensures r.Abort? ==> r.message == ForecastLeafMessage(l)
    ensures r.Assign? ==>
      r.value.skyCondition == f.skyCondition && r.value.turbulenceCondition == f.turbulenceCondition &&
      r.value.icingCondition == f.icingCondition && r.value.temperature == f.temperature
    ensures r.Assign? ==> forall other :: other != l ==> ForecastField(r.value, other) == ForecastField(f, other)
    ensures r.Assign? ==>
      ForecastField(r.value, l) ==
        if l == TimeBecoming then OptTime(conv.isoDate(text))
        else if l in ForecastDateLeaves then Time(conv.isoDate(text).value)
        else if l in ForecastIntLeaves then OptInt(ParseInt(text))
        else if l in ForecastDoubleLeaves then OptReal(conv.double(text))
        else if l == Change then OptChange(ChangeIndicatorFromRaw(text))
        else OptText(Some(text))
  {
    match l
    case FcstTimeFrom =>
      (match conv.isoDate(text)
       case Some(d) => Assign(f.(fcstTimeFrom := d))
       case None => Abort(ForecastLeafMessage(l)))
    case FcstTimeTo =>
      (match conv.isoDate(text)
       case Some(d) => Assign(f.(fcstTimeTo := d))
       case None => Abort(ForecastLeafMessage(l)))
    case Change =>
      (match ChangeIndicatorFromRaw(text)
       case Some(c) => Assign(f.(changeIndicator := Some(c)))
       case None => Abort(ForecastLeafMessage(l)))
    case TimeBecoming =>
      (match conv.isoDate(text)
       case Some(d) => Assign(f.(timeBecoming := Some(d)))
       case None => Abort(ForecastLeafMessage(l)))
    case Probability =>
      (match ParseInt(text)
       case Some(v) => Assign(f.(probability := Some(v)))
       case None => Abort(ForecastLeafMessage(l)))
    case WindDirDegrees =>
      (match ParseInt(text)
       case Some(v) => Assign(f.(windDirDegrees := Some(v)))
       case None => Abort(ForecastLeafMessage(l)))
    case WindSpeedKt =>
      (match ParseInt(text)
       case Some(v) => Assign(f.(windSpeedKt := Some(v)))
       case None => Abort(ForecastLeafMessage(l)))
    case WindGustKt =>
      (match ParseInt(text)
       case Some(v) => Assign(f.(windGustKt := Some(v)))
       case None => Abort(ForecastLeafMessage(l)))
    case WindShearDirDegrees =>
      (match ParseInt(text)
       case Some(v) => Assign(f.(windShearDirDegrees := Some(v)))
       case None => Abort(ForecastLeafMessage(l)))
    case WindShearSpeedKt =>
      (match ParseInt(text)
       case Some(v) => Assign(f.(windShearSpeedKt := Some(v)))
       case None => Abort(ForecastLeafMessage(l)))
    case WindShearHgtFtAgl =>
      (match ParseInt(text)
       case Some(v) => Assign(f.(windShearHgtFtAgl := Some(v)))
       case None => Abort(ForecastLeafMessage(l)))
    case VisibilityStatuteMi =>
      (match conv.double(text)
       case Some(x) => Assign(f.(visibilityStatuteMi := Some(x)))
       case None => Abort(ForecastLeafMessage(l)))
    case AltimInHg =>
      (match conv.double(text)
       case Some(x) => Assign(f.(altimInHg := Some(x)))
       case None => Abort(ForecastLeafMessage(l)))
    case VertVisFt =>
      (match conv.double(text)
       case Some(x) => Assign(f.(vertVisFt := Some(x)))
       case None => Abort(ForecastLeafMessage(l)))
    case WxString => Assign(f.(wxString := Some(text)))
    case NotDecoded => Assign(f.(notDecoded := Some(text)))
  }

  /**
   * The layer a `sky_condition` element inside a forecast period adds: the
   * shared sky-layer rule, plus a cloud type that is set only for a non-CLR
   * layer whose `cloud_type` is CB, TCU or CU.
   */
  function TafSkyLayer(attrs: map<string, string>): (r: Option<SkyCondition>)
    ensures r.Some? <==> ReportedLayer(attrs).Some?
    ensures r.Some? ==>
      r.value.skyCover == ReportedLayer(attrs).value.0 && r.value.cloudBaseFtAgl == ReportedLayer(attrs).value.1
    ensures r.Some? && r.value.cloudType.Some? ==>
      attrs["sky_cover"] != "CLR" && "cloud_type" in attrs && CloudTypeRaw(r.value.cloudType.value) == attrs["cloud_type"]
    ensures r.Some? && attrs["sky_cover"] != "CLR" && "cloud_type" in attrs ==>
      r.value.cloudType == CloudTypeFromRaw(attrs["cloud_type"])
    ensures r.Some? && r.value.skyCover == Clr ==> r.value.cloudBaseFtAgl == 0
  {
    match ReportedLayer(attrs)
    case None => None
    case Some((cover, base)) =>
      var cloudType := if attrs["sky_cover"] != "CLR" && "cloud_type" in attrs then CloudTypeFromRaw(attrs["cloud_type"]) else None;
      Some(NewSkyCondition(cover, base, cloudType))
  }

  function IssueTimeOf(t: TAF): Date { t.issueTime }

  /** The delegate's position in the document: `none`, `taf` or `forecast` in the source. */
  datatype ParsingState = Outside | InTaf | InForecast

  /** Start elements whose attributes are only printed as a diagnostic (no buffer reset). */
  const DiagnosticOnly: set<string> := {"turbulence_condition", "icing_condition", "temperature"}

  /** Elements whose end the delegate handles before looking at the state. */
  const StructuralEnds: set<string> := {"error", "warning", "TAF", "forecast"}

  /** The delegate's mutable state, as one value. */
  datatype TafDelegate = TafDelegate(
    currentState: ParsingState,
    currentTaf: TAF,
    currentForecast: Forecast,
    buffer: string,
    parsingErrorMessage: string,
    tafs: seq<TAF>,
    aborted: bool)

  /** What `didStartElement` does to the delegate's state. */
  function TafStart(s: TafDelegate, name: string, attrs: map<string, string>): TafDelegate {
    match name
    case "data" =>
      (match CheckNumResults(attrs)
       case Unreadable => s.(parsingErrorMessage := "Failed to parse TAF XML.", aborted := true)
       case NoResults => s.(parsingErrorMessage := "Invalid station string.", aborted := true, buffer := "")
       case Count(_) => s.(buffer := ""))
    case "TAF" => s.(currentState := InTaf, currentTaf := NewTaf(), buffer := "")
    case "forecast" => s.(currentState := InForecast, currentForecast := NewForecast(), buffer := "")
    case "sky_condition" =>
      if s.currentState == InForecast then
        s.(currentForecast := s.currentForecast.(skyCondition := s.currentForecast.skyCondition +
          match TafSkyLayer(attrs) case Some(layer) => [layer] case None => []))
      else s.(buffer := "")
    case _ => if name in DiagnosticOnly then s else s.(buffer := "")
  }

  /** What `didEndElement` does to the delegate's state. */
  function TafEnd(conv: Conversions, s: TafDelegate, name: string): TafDelegate {
    match name
    case "error" => if s.buffer != "" then s.(parsingErrorMessage := s.buffer, aborted := true) else s
    case "warning" => s
    case "TAF" => s.(tafs := s.tafs + [s.currentTaf], currentState := Outside)
    case "forecast" =>
      s.(currentTaf := s.currentTaf.(forecast := s.currentTaf.forecast + [s.currentForecast]), currentState := InTaf)
    case _ =>
      match s.currentState
      case Outside => s
      case InTaf =>
        (match TafLeafOf(name)
         case None => s
         case Some(l) =>
           match ApplyTafLeaf(s.currentTaf, l, s.buffer, conv)
           case Assign(t) => s.(currentTaf := t)
           case Abort(m) => s.(parsingErrorMessage := m, aborted := true))
      case InForecast =>
        (match ForecastLeafOf(name)
         case None => s
         case Some(l) =>
           match ApplyForecastLeaf(s.currentForecast, l, s.buffer, conv)
           case Assign(f) => s.(currentForecast := f)
           case Abort(m) => s.(parsingErrorMessage := m, aborted := true))
  }

  /** One callback of the parser, applied to the delegate's state. */
  function TafStep(conv: Conversions, s: TafDelegate, e: Event): TafDelegate {
    match e
    case Start(name, attrs) => TafStart(s, name, attrs)
    case End(name) => TafEnd(conv, s, name)
    case Text(chars) => s.(buffer := s.buffer + chars)
    case Malformed => s
  }

  /** The delegate has called `abortParsing()`. */
  function TafHalted(s: TafDelegate): bool { s.aborted }

  class TafRequest {
    const stationString: seq<string>
    const hoursBeforeNow: int
    var queryParams: seq<QueryItem>
    const conv: Conversions

    var currentState: ParsingState
    var currentTaf: TAF
    var currentForecast: Forecast
    var buffer: string
    var parsingErrorMessage: string
    var tafs: seq<TAF>
    /** Set when the delegate calls `abortParsing()` on the running parse. */
    var aborted: bool

    /** Every clear layer the decoder has built, wherever it now is, has base 0. */
    ghost predicate Valid()
      reads this
    {
      ForecastGrounded(currentForecast) && TafGrounded(currentTaf) && AllGrounded(tafs)
    }

    function Snapshot(): TafDelegate
      reads this
    {
      TafDelegate(currentState, currentTaf, currentForecast, buffer, parsingErrorMessage, tafs, aborted)
    }

    constructor ForStations(stationString: seq<string>, conv: Conversions, hoursBeforeNow: int := 12, mostRecent: bool := false)
      ensures Valid()
      ensures this.stationString == stationString && this.hoursBeforeNow == hoursBeforeNow && this.conv == conv
      ensures queryParams ==
        [QueryItem("dataSource", Some("tafs")),
         QueryItem("hoursBeforeNow", Some(FormatInt(hoursBeforeNow))),
         QueryItem("stationString", Some(Join(stationString, ",")))] +
        (if mostRecent then [QueryItem("mostRecentForEachStation", Some("constraint"))] else [])
      ensures currentState == Outside && currentTaf == NewTaf() && currentForecast == NewForecast()
      ensures buffer == "" && parsingErrorMessage == "" && tafs == [] && !aborted
    {
      this.stationString := stationString;
      this.hoursBeforeNow := hoursBeforeNow;
      this.conv := conv;
      queryParams := [
        QueryItem("dataSource", Some("tafs")),
        QueryItem("hoursBeforeNow", Some(FormatInt(hoursBeforeNow))),
        QueryItem("stationString", Some(Join(stationString, ",")))];
      currentState := Outside;
      currentTaf := NewTaf();
      currentForecast := NewForecast();
      buffer := "";
      parsingErrorMessage := "";
      tafs := [];
      aborted := false;
      new;
      if mostRecent {
        queryParams := queryParams + [QueryItem("mostRecentForEachStation", Some("constraint"))];
      }
    }

    /** `parser(_:didStartElement:...)`. */
    method DidStartElement(name: string, attrs: map<string, string>)
      requires Valid()
      modifies this
      ensures unchanged(this`queryParams)
      ensures Valid()
      ensures Snapshot() == TafStart(old(Snapshot()), name, attrs)
      ensures unchanged(this`tafs)
      ensures name == "data" ==>
        unchanged(this`currentState, this`currentTaf, this`currentForecast) &&
        match CheckNumResults(attrs)
        case Unreadable => aborted && parsingErrorMessage == "Failed to parse TAF XML." && buffer == old(buffer)
        case NoResults => aborted && parsingErrorMessage == "Invalid station string." && buffer == ""
        case Count(_) => unchanged(this`aborted, this`parsingErrorMessage) && buffer == ""
      ensures name == "TAF" ==>
        currentState == InTaf && currentTaf == NewTaf() && buffer == "" &&
        unchanged(this`currentForecast, this`aborted, this`parsingErrorMessage)
      ensures name == "forecast" ==>
        currentState == InForecast && currentForecast == NewForecast() && buffer == "" &&
        unchanged(this`currentTaf, this`aborted, this`parsingErrorMessage)
      ensures name == "sky_condition" ==>
        unchanged(this`currentState, this`currentTaf, this`aborted, this`parsingErrorMessage) &&
        if old(currentState) == InForecast then
          buffer == old(buffer) &&
          currentForecast == old(currentForecast).(skyCondition := old(currentForecast.skyCondition) +
            match TafSkyLayer(attrs) case Some(layer) => [layer] case None => [])
        else
          buffer == "" && currentForecast == old(currentForecast)
      ensures name in DiagnosticOnly ==> unchanged(this)
      ensures name !in {"data", "TAF", "forecast", "sky_condition"} + DiagnosticOnly ==>
        buffer == "" &&
        unchanged(this`currentState, this`currentTaf, this`currentForecast, this`aborted, this`parsingErrorMessage)
    {
      match name {
        case "data" =>
          match CheckNumResults(attrs) {
            case Unreadable =>
              parsingErrorMessage := "Failed to parse TAF XML.";
              aborted := true;
              return;
            case NoResults =>
              // the service answers an invalid station string with zero results
              parsingErrorMessage := "Invalid station string.";
              aborted := true;
            case Count(_) =>
          }
        case "TAF" =>
          currentState := InTaf;
          currentTaf := NewTaf();
        case "forecast" =>
          currentState := InForecast;
          currentForecast := NewForecast();
        case "sky_condition" =>
          if currentState == InForecast {
            var layer := TafSkyLayer(attrs);
            if layer.Some? {
              currentForecast := currentForecast.(skyCondition := currentForecast.skyCondition + [layer.value]);
            }
            return;
          }
        case "turbulence_condition" =>
          return;
        case "icing_condition" =>
          return;
        case "temperature" =>
          return;
        case _ =>
          // a new element: clear the text buffer
          buffer := "";
          return;
      }
      buffer := "";
    }

    /** `parser(_:didEndElement:...)`. */
    method DidEndElement(name: string)
      requires Valid()
      modifies this
      ensures unchanged(this`queryParams)
      ensures Valid()
      ensures Snapshot() == TafEnd(conv, old(Snapshot()), name)
      ensures unchanged(this`buffer)
      ensures name == "error" ==>
        unchanged(this`currentState, this`currentTaf, this`currentForecast, this`tafs) &&
        if old(buffer) != "" then aborted && parsingErrorMessage == old(buffer)
        else unchanged(this`aborted, this`parsingErrorMessage)
      ensures name == "warning" ==> unchanged(this)
      ensures name == "TAF" ==>
        tafs == old(tafs) + [old(currentTaf)] && currentState == Outside &&
        unchanged(this`currentTaf, this`currentForecast, this`aborted, this`parsingErrorMessage)
      ensures name == "forecast" ==>
        currentTaf == old(currentTaf).(forecast := old(currentTaf.forecast) + [old(currentForecast)]) &&
        currentState == InTaf &&
        unchanged(this`currentForecast, this`tafs, this`aborted, this`parsingErrorMessage)
      ensures name !in StructuralEnds ==>
        unchanged(this`currentState, this`tafs) &&
        match old(currentState)
        case Outside => unchanged(this)
        case InTaf =>
          currentForecast == old(currentForecast) &&
          (match TafLeafOf(name)
           case None => unchanged(this)
           case Some(l) =>
             match ApplyTafLeaf(old(currentTaf), l, old(buffer), conv)
             case Assign(t) => currentTaf == t && unchanged(this`aborted, this`parsingErrorMessage)
             case Abort(m) => aborted && parsingErrorMessage == m && currentTaf == old(currentTaf))
        case InForecast =>
          currentTaf == old(currentTaf) &&
          (match ForecastLeafOf(name)
           case None => unchanged(this)
           case Some(l) =>
             match ApplyForecastLeaf(old(currentForecast), l, old(buffer), conv)
             case Assign(f) => currentForecast == f && unchanged(this`aborted, this`parsingErrorMessage)
             case Abort(m) => aborted && parsingErrorMessage == m && currentForecast == old(currentForecast))
    {
      match name {
        case "error" =>
          if buffer != "" {
            parsingErrorMessage := buffer;
            aborted := true;
          }
        case "warning" =>
          // the warning text is only printed; decoding goes on
        case "TAF" =>
          GroundedAppend(tafs, currentTaf);
          tafs := tafs + [currentTaf];
          currentState := Outside;
        case "forecast" =>
          currentTaf := currentTaf.(forecast := currentTaf.forecast + [currentForecast]);
          currentState := InTaf;
        case _ =>
          if currentState == InTaf {
            var leaf := TafLeafOf(name);
            if leaf.Some? {
              match ApplyTafLeaf(currentTaf, leaf.value, buffer, conv) {
                case Assign(t) =>
                  currentTaf := t;
                case Abort(m) =>
                  parsingErrorMessage := m;
                  aborted := true;
              }
            }
          } else if currentState == InForecast {
            var leaf := ForecastLeafOf(name);
            if leaf.Some? {
              match ApplyForecastLeaf(currentForecast, leaf.value, buffer, conv) {
                case Assign(f) =>
                  currentForecast := f;
                case Abort(m) =>
                  parsingErrorMessage := m;
                  aborted := true;
              }
            }
          }
      }
    }

    /** `parser(_:foundCharacters:)`: text accumulates in the buffer. */
    method FoundCharacters(chars: string)
      requires Valid()
      modifies this`buffer
      ensures Valid()
      ensures Snapshot() == TafStep(conv, old(Snapshot()), Text(chars))
      ensures buffer == old(buffer) + chars
    {
      buffer := buffer + chars;
    }

    /**
     * `decode(with:)`: runs a fresh parse over the document's events, stopping
     * at the first abort or well-formedness failure. A parse that does not
     * complete throws `parsing(message:)` with the delegate's message and no
     * reports; one that completes returns every report collected so far
     * (including those of earlier calls, since the list is never cleared),
     * latest issue time first.
     */
    method Decode(events: seq<Event>) returns (r: Result<seq<TAF>, AvWeatherError>)
      requires Valid()
      modifies this
      ensures unchanged(this`queryParams)
      ensures Valid()
      ensures old(tafs) <= tafs
      ensures r.Failure? ==> r.error == Parsing(parsingErrorMessage)
      ensures r.Failure? <==> aborted || Malformed in events
      ensures r.Success? ==> NonIncreasing(r.value, IssueTimeOf) && multiset(r.value) == multiset(tafs)
      ensures r.Success? ==> AllGrounded(r.value)
      ensures var run := Deliver(conv, TafStep, TafHalted, old(Snapshot()).(aborted := false), events);
        Snapshot() == run.state &&
        (r.Failure? <==> run.malformed || run.state.aborted) &&
        (r.Success? ==> multiset(r.value) == multiset(run.state.tafs))
    {
      aborted := false;
      ghost var s0 := Snapshot();
      var failed := false;
      var i := 0;
      while i < |events| && !aborted && !failed
        invariant 0 <= i <= |events|
        invariant unchanged(this`queryParams)
        invariant Valid()
        invariant old(tafs) <= tafs
        invariant failed <==> Malformed in events[..i]
        invariant Deliver(conv, TafStep, TafHalted, s0, events[..i]) == Delivery(Snapshot(), failed)
      {
        DeliverNext(conv, TafStep, TafHalted, s0, events, i);
        match events[i] {
          case Start(name, attrs) => DidStartElement(name, attrs);
          case End(name) => DidEndElement(name);
          case Text(chars) => FoundCharacters(chars);
          case Malformed => failed := true;
        }
        assert events[..i + 1] == events[..i] + [events[i]];
        i := i + 1;
      }
      if i < |events| {
        DeliverHalts(conv, TafStep, TafHalted, s0, events, i);
      } else {
        assert events[..i] == events;
      }
      if aborted || failed {
        return Failure(Parsing(parsingErrorMessage));
      }
      assert events[..i] == events;
      var sortedTafs := SortDesc(tafs, IssueTimeOf);
      GroundedPermutation(tafs, sortedTafs);
      return Success(sortedTafs);
    }
  }
}
