/**
 * The METAR request's XML decoder (Requests/MetarRequest.swift): an
 * XMLParser delegate with two states that fills one observation at a time
 * and appends it to its output list at the end of each `METAR` group.
 * Every leaf it knows must convert, or the parse is aborted.
 */
module MetarDecoder {
  import opened Primitives
  import opened XmlEvents
  import opened SkyCover
  import opened MetarModel
  import opened AvWeatherErrors

  /**
   * The message a METAR leaf whose text does not convert aborts the parse
   * with. The text leaves never abort, so their empty message is never used.
   */
  function MetarLeafMessage(l: MetarLeaf): string {
    match l
    case RawText => ""
    case StationId => ""
    case ObservationTime => "Failed to parse date from METAR XML."
    case Latitude => "Failed to parse latitude."
    case Longitude => "Failed to parse longitude."
    case TempC => "Failed to parse temperature."
    case DewpointC => "Failed to parse dewpoint."
    case WindDirDegrees => "Failed to parse wind direction."
    case WindSpeedKt => "Failed to parse wind speed."
    case WindGustKt => "Failed to parse wind gust."
    case VisibilityStatuteMi => "Failed to parse visbility."
    case AltimInHg => "Failed to parse altimeter setting."
    case SeaLevelPressureMb => "Failed to parse sea level pressure."
    case FlightCategoryElement => "Failed to parse flight category."
    case ThreeHrPressureTendencyMb => "Failed to parse three hour pressure tendency."
    case MaxTC => "Failed to parse maximum air temperature from the past 6 hours."
    case MinTC => "Failed to parse minimum air temperature from the past 6 hours."
    case MaxT24hrC => "Failed to parse maximum air temperature from the past 24 hours."
    case MinT24hrC => "Failed to parse minimum air temperature from the past 24 hours."
    case PrecipIn => "Failed to parse precip since last METAR."
    case Pcp3hrIn => "Failed to parse precip from last 3 hours."
    case Pcp6hrIn => "Failed to parse precip from last 6 hours."
    case Pcp24hrIn => "Failed to parse precip from last 24 hours."
    case SnowIn => "Failed to parse snow depth."
    case VertVisFt => "Failed to parse vertical visibility."
    case MetarTypeElement => "Failed to parse METAR type."
    case Elevation => "Failed to parse station elevation."
  }

  /** `m` with the Double field of leaf `l` set to `x`, and nothing else changed. */
  function SetReal(m: Metar, l: MetarLeaf, x: Double): (r: Metar)
    requires KindOf(l) == DoubleLeaf
    ensures MetarField(r, l) == Real(x)
    ensures forall other :: other != l ==> MetarField(r, other) == MetarField(m, other)
    ensures r.skyCondition == m.skyCondition && r.qualityControlFlags == m.qualityControlFlags
  {
    match l
    case Latitude => m.(latitude := x)
    case Longitude => m.(longitude := x)
    case TempC => m.(temp := x)
    case DewpointC => m.(dewpoint := x)
    case VisibilityStatuteMi => m.(visibility := x)
    case AltimInHg => m.(altimeter := x)
    case SeaLevelPressureMb => m.(seaLevelPressure := x)
    case ThreeHrPressureTendencyMb => m.(threeHourPressureTendency := x)
    case MaxTC => m.(maxTempPastSixHours := x)
    case MinTC => m.(minTempPastSixHours := x)
    case MaxT24hrC => m.(maxTempPastTwentyFourHours := x)
    case MinT24hrC => m.(minTempPastTwentyFourHours := x)
    case PrecipIn => m.(precipSinceLastMetar := x)
    case Pcp3hrIn => m.(precipPastThreeHours := x)
    case Pcp6hrIn => m.(precipPastSixHours := x)
    case Pcp24hrIn => m.(precipPastTwentyFourHours := x)
    case SnowIn => m.(snowDepth := x)
    case Elevation => m.(stationElevation := x)
  }

  /** `m` with the text field of leaf `l` set to `text`, and nothing else changed. */
  function SetChars(m: Metar, l: MetarLeaf, text: string): (r: Metar)
    requires KindOf(l) == TextLeaf
    ensures MetarField(r, l) == Chars(text)
    ensures forall other :: other != l ==> MetarField(r, other) == MetarField(m, other)
    ensures r.skyCondition == m.skyCondition && r.qualityControlFlags == m.qualityControlFlags
  {
    match l
    case RawText => m.(rawText := text)
    case StationId => m.(stationId := text)
  }

  /** `m` with the Int field of leaf `l` set to `n`, and nothing else changed. */
  function SetWhole(m: Metar, l: MetarLeaf, n: int): (r: Metar)
    requires KindOf(l) == IntLeaf
    ensures MetarField(r, l) == Whole(n)
    ensures forall other :: other != l ==> MetarField(r, other) == MetarField(m, other)
    ensures r.skyCondition == m.skyCondition && r.qualityControlFlags == m.qualityControlFlags
  {
    match l
    case WindDirDegrees => m.(windDirection := n)
    case WindSpeedKt => m.(windSpeed := n)
    case WindGustKt => m.(windGust := n)
    case VertVisFt => m.(verticalVisibility := n)
  }

  /**
   * The end of a leaf element inside a `METAR` group: the two text fields
   * take the text; the date, the Ints, the Doubles, the flight category and
   * the report type must convert, or the parse aborts with the field's
   * message. Exactly the named field changes; the layer and flag lists are
   * never touched.
   */
  function ApplyMetarLeaf(m: Metar, l: MetarLeaf, text: string, conv: Conversions): (r: LeafOutcome<Metar>)
    ensures r.Abort? <==>
      match KindOf(l)
      case TextLeaf => false
      case DateLeaf => conv.isoDate(text).None?
      case IntLeaf => ParseInt(text).None?
      case DoubleLeaf => conv.double(text).None?
      case CategoryLeaf => FlightCategoryFromRaw(text).None?
      case TypeLeaf => MetarTypeFromRaw(text).None?
    ensures r.Abort? ==> r.message == MetarLeafMessage(l)
    ensures r.Assign? ==> r.value.skyCondition == m.skyCondition && r.value.qualityControlFlags == m.qualityControlFlags
    ensures r.Assign? ==> forall other :: other != l ==> MetarField(r.value, other) == MetarField(m, other)
    ensures r.Assign? ==>
      MetarField(r.value, l) ==
        match KindOf(l)
        case TextLeaf => Chars(text)
        case DateLeaf => Instant(conv.isoDate(text).value)
        case IntLeaf => Whole(ParseInt(text).value)
        case DoubleLeaf => Real(conv.double(text).value)
        case CategoryLeaf => Category(FlightCategoryFromRaw(text).value)
        case TypeLeaf => Kind(MetarTypeFromRaw(text).value)
  {
    match KindOf(l)
    case TextLeaf =>
      Assign(SetChars(m, l, text))
    case DateLeaf =>
      (match conv.isoDate(text)
       case Some(d) => Assign(m.(observationTime := d))
       case None => Abort(MetarLeafMessage(l)))
    case IntLeaf =>
      (match ParseInt(text)
       case Some(n) => Assign(SetWhole(m, l, n))
       case None => Abort(MetarLeafMessage(l)))
    case DoubleLeaf =>
      (match conv.double(text)
       case Some(x) => Assign(SetReal(m, l, x))
       case None => Abort(MetarLeafMessage(l)))
    case CategoryLeaf =>
      (match FlightCategoryFromRaw(text)
       case Some(c) => Assign(m.(flightCategory := c))
       case None => Abort(MetarLeafMessage(l)))
    case TypeLeaf =>
      (match MetarTypeFromRaw(text)
       case Some(t) => Assign(m.(metarType := t))
       case None => Abort(MetarLeafMessage(l)))
  }

  // ---------------------------------------------------------------------
  // The cloud layer of a `sky_condition` element.

  /**
   * The layer the code at MetarRequest.swift:77-83 builds: the cover is
   * looked up from the BASE text instead of the `sky_cover` text, so it
   * falls back to `skc` whenever the base is an Int.
   */
  function MetarSkyLayerAsWritten(attrs: map<string, string>): (r: Option<SkyCondition>)
    ensures r.Some? <==> ReportedLayer(attrs).Some?
    ensures r.Some? ==> r.value.base == ReportedLayer(attrs).value.1
    ensures r.Some? ==> r.value.skyCover == if attrs["sky_cover"] == "CLR" then Clr else Skc
    ensures r.Some? && r.value.skyCover == Clr ==> r.value.base == 0
  {
    if "sky_cover" !in attrs then None
    else if attrs["sky_cover"] == "CLR" then Some(SkyCondition(Clr, 0))
    else if "cloud_base_ft_agl" in attrs && ParseInt(attrs["cloud_base_ft_agl"]).Some? then
      var baseStr := attrs["cloud_base_ft_agl"];
      IntIsNoCover(baseStr);
      Some(SkyCondition(FromRaw(baseStr).GetOr(Skc), ParseInt(baseStr).value))
    else None
  }

  /** A text that reads as an Int is never a sky cover code. */
  lemma IntIsNoCover(s: string)
    requires ParseInt(s).Some?
    ensures FromRaw(s).None?
  {
    if FromRaw(s).Some? {
      RawIsNotInt(FromRaw(s).value);
    }
  }

  /** As written, every reported layer is either clear or `skc`: FEW, SCT, BKN, OVC ... are lost. */
  lemma {:induction false} AsWrittenCoverIsClearOrSkc(attrs: map<string, string>)
    requires MetarSkyLayerAsWritten(attrs).Some?
    ensures MetarSkyLayerAsWritten(attrs).value.skyCover in {Clr, Skc}
  {
    if attrs["sky_cover"] != "CLR" {
      IntIsNoCover(attrs["cloud_base_ft_agl"]);
    }
  }

  /** A scattered layer at 2500 ft comes out as `skc` as written, and as `sct` once corrected. */
  lemma {:induction false} AsWrittenCounterexample()
    ensures var attrs := map["sky_cover" := "SCT", "cloud_base_ft_agl" := "2500"];
      MetarSkyLayerAsWritten(attrs) == Some(SkyCondition(Skc, 2500)) &&
      MetarSkyLayer(attrs) == Some(SkyCondition(Sct, 2500))
  {
    var attrs := map["sky_cover" := "SCT", "cloud_base_ft_agl" := "2500"];
    assert ParseInt("2500") == Some(2500) by {
      assert "2500"[..3] == "250" && "250"[..2] == "25" && "25"[..1] == "2" && "2"[..0] == "";
    }
    IntIsNoCover("2500");
  }

  /**
   * The evidently intended layer: the one the code builds, with the cover
   * looked up from `sky_cover` instead, as the documentation of
   * `Metar.SkyCondition` and the two other decoders do. It then agrees with
   * the layer rule the TAF decoder and the legacy loader share.
   */
  function MetarSkyLayer(attrs: map<string, string>): (r: Option<SkyCondition>)
    ensures r.Some? <==> MetarSkyLayerAsWritten(attrs).Some?
    ensures r.Some? ==> r.value.base == MetarSkyLayerAsWritten(attrs).value.base
    ensures r.Some? ==> r.value.skyCover == FromRaw(attrs["sky_cover"]).GetOr(Skc)
    ensures r.Some? ==> ReportedLayer(attrs) == Some((r.value.skyCover, r.value.base))
  {
    match MetarSkyLayerAsWritten(attrs)
    case None => None
    case Some(layer) => Some(layer.(skyCover := FromRaw(attrs["sky_cover"]).GetOr(Skc)))
  }

  /** As written, every layer the decoder stores is clear or `skc`. */
  ghost predicate CoversClearOrSkc(layers: seq<SkyCondition>) {
    forall i :: 0 <= i < |layers| ==> layers[i].skyCover == Clr || layers[i].skyCover == Skc
  }

  ghost predicate AllCoversClearOrSkc(ms: seq<Metar>) {
    forall k :: 0 <= k < |ms| ==> CoversClearOrSkc(ms[k].skyCondition)
  }

  /** The delegate's position in the document: `none` or `metar` in the source. */
  datatype MetarState = Outside | InMetar

  /** The delegate's mutable state, as one value. */
  datatype MetarDelegate = MetarDelegate(
    currentState: MetarState,
    currentItem: Metar,
    buffer: string,
    parsingErrorMessage: string,
    metars: seq<Metar>,
    aborted: bool)

  /** What `didStartElement` does to the delegate's state. */
  function MetarStart(s: MetarDelegate, name: string, attrs: map<string, string>): MetarDelegate {
    match name
    case "data" =>
      (match CheckNumResults(attrs)
       case Unreadable => s.(parsingErrorMessage := "Failed to parse METAR XML.", aborted := true)
       case NoResults => s.(parsingErrorMessage := "Invalid station string.", aborted := true)
       case Count(_) => s)
    case "METAR" => s.(currentState := InMetar, currentItem := NewMetar())
    case "sky_condition" =>
      if s.currentState == InMetar then
        s.(currentItem := s.currentItem.(skyCondition := s.currentItem.skyCondition +
          match MetarSkyLayerAsWritten(attrs) case Some(layer) => [layer] case None => []))
      else s
    case _ => if s.currentState == InMetar then s.(buffer := "") else s
  }

  /** What `didEndElement` does to the delegate's state. */
  function MetarEnd(conv: Conversions, s: MetarDelegate, name: string): MetarDelegate {
    if name == "METAR" then s.(metars := s.metars + [s.currentItem], currentState := Outside)
    else if s.currentState == Outside then s
    else
      match MetarLeafOf(name)
      case None => s
      case Some(l) =>
        match ApplyMetarLeaf(s.currentItem, l, s.buffer, conv)
        case Assign(m) => s.(currentItem := m)
        case Abort(msg) => s.(parsingErrorMessage := msg, aborted := true)
  }

  /** One callback of the parser, applied to the delegate's state. */
  function MetarStep(conv: Conversions, s: MetarDelegate, e: Event): MetarDelegate {
    match e
    case Start(name, attrs) => MetarStart(s, name, attrs)
    case End(name) => MetarEnd(conv, s, name)
    case Text(chars) => s.(buffer := s.buffer + chars)
    case Malformed => s
  }

  /** The delegate has called `abortParsing()`. */
  function MetarHalted(s: MetarDelegate): bool { s.aborted }

  class MetarRequest {
    const stationString: string
    const hoursBeforeNow: int
    var queryParams: seq<QueryItem>
    const conv: Conversions

    var currentState: MetarState
    var currentItem: Metar
    var buffer: string
    var parsingErrorMessage: string
    var metars: seq<Metar>
    /** Set when the delegate calls `abortParsing()` on the running parse. */
    var aborted: bool

    /**
     * Every clear layer the decoder has built, wherever it now is, has base
     * 0; and every layer it has built is clear or `skc`.
     */
    ghost predicate Valid()
      reads this
    {
      ClearLayersGrounded(currentItem.skyCondition) && AllGrounded(metars) &&
      CoversClearOrSkc(currentItem.skyCondition) && AllCoversClearOrSkc(metars)
    }

    function Snapshot(): MetarDelegate
      reads this
    {
      MetarDelegate(currentState, currentItem, buffer, parsingErrorMessage, metars, aborted)
    }

    constructor ForStation(stationString: string, conv: Conversions, hoursBeforeNow: int := 2, mostRecent: bool := false)
      ensures Valid()
      ensures this.stationString == stationString && this.hoursBeforeNow == hoursBeforeNow && this.conv == conv
      ensures queryParams ==
        [QueryItem("dataSource", Some("metars")),
         QueryItem("hoursBeforeNow", Some(FormatInt(hoursBeforeNow))),
         QueryItem("stationString", Some(stationString))] +
        (if mostRecent then [QueryItem("mostRecent", Some("true"))] else [])
      ensures currentState == Outside && currentItem == NewMetar()
      ensures buffer == "" && parsingErrorMessage == "" && metars == [] && !aborted
    {
      this.stationString := stationString;
      this.hoursBeforeNow := hoursBeforeNow;
      this.conv := conv;
      queryParams := [
        QueryItem("dataSource", Some("metars")),
        QueryItem("hoursBeforeNow", Some(FormatInt(hoursBeforeNow))),
        QueryItem("stationString", Some(stationString))];
      currentState := Outside;
      currentItem := NewMetar();
      buffer := "";
      parsingErrorMessage := "";
      metars := [];
      aborted := false;
      new;
      if mostRecent {
        queryParams := queryParams + [QueryItem("mostRecent", Some("true"))];
      }
    }

    /** `parser(_:didStartElement:...)`. */
    method DidStartElement(name: string, attrs: map<string, string>)
      requires Valid()
      modifies this
      ensures unchanged(this`queryParams)
      ensures Valid()
      ensures Snapshot() == MetarStart(old(Snapshot()), name, attrs)
      ensures unchanged(this`metars)
      ensures name == "data" ==>
        unchanged(this`currentState, this`currentItem, this`buffer) &&
        match CheckNumResults(attrs)
        case Unreadable => aborted && parsingErrorMessage == "Failed to parse METAR XML."
        case NoResults => aborted && parsingErrorMessage == "Invalid station string."
        case Count(_) => unchanged(this`aborted, this`parsingErrorMessage)
      ensures name == "METAR" ==>
        currentState == InMetar && currentItem == NewMetar() &&
        unchanged(this`buffer, this`aborted, this`parsingErrorMessage)
      ensures name == "sky_condition" ==>
        unchanged(this`currentState, this`buffer, this`aborted, this`parsingErrorMessage) &&
        if old(currentState) == InMetar then
          currentItem == old(currentItem).(skyCondition := old(currentItem.skyCondition) +
            match MetarSkyLayerAsWritten(attrs) case Some(layer) => [layer] case None => [])
        else
          currentItem == old(currentItem)
      ensures name !in {"data", "METAR", "sky_condition"} ==>
        unchanged(this`currentState, this`currentItem, this`aborted, this`parsingErrorMessage) &&
        buffer == if old(currentState) == InMetar then "" else old(buffer)
    {
      match name {
        case "data" =>
          match CheckNumResults(attrs) {
            case Unreadable =>
              parsingErrorMessage := "Failed to parse METAR XML.";
              aborted := true;
            case NoResults =>
              // the service answers an invalid station string with zero results
              parsingErrorMessage := "Invalid station string.";
              aborted := true;
            case Count(_) =>
          }
        case "METAR" =>
          currentState := InMetar;
          currentItem := NewMetar();
        case "sky_condition" =>
          if currentState == InMetar {
            var layer := MetarSkyLayerAsWritten(attrs);
            if layer.Some? {
              AsWrittenCoverIsClearOrSkc(attrs);
              currentItem := currentItem.(skyCondition := currentItem.skyCondition + [layer.value]);
            }
          }
        case _ =>
          // a new element under METAR: clear the text buffer
          if currentState == InMetar {
            buffer := "";
          }
      }
    }

    /** `parser(_:didEndElement:...)`. */
    method DidEndElement(name: string)
      requires Valid()
      modifies this
      ensures unchanged(this`queryParams)
      ensures Valid()
      ensures Snapshot() == MetarEnd(conv, old(Snapshot()), name)
      ensures unchanged(this`buffer)
      ensures name == "METAR" ==>
        metars == old(metars) + [old(currentItem)] && currentState == Outside &&
        unchanged(this`currentItem, this`aborted, this`parsingErrorMessage)
      ensures name != "METAR" ==>
        unchanged(this`currentState, this`metars) &&
        if old(currentState) == Outside then unchanged(this)
        else
          match MetarLeafOf(name)
          case None => unchanged(this)
          case Some(l) =>
            match ApplyMetarLeaf(old(currentItem), l, old(buffer), conv)
            case Assign(m) => currentItem == m && unchanged(this`aborted, this`parsingErrorMessage)
            case Abort(msg) => aborted && parsingErrorMessage == msg && currentItem == old(currentItem)
    {
      // the end of the METAR group: save the observation
      if name == "METAR" {
        GroundedAppend(metars, currentItem);
        assert AllCoversClearOrSkc(metars + [currentItem]) by {
          forall k | 0 <= k < |metars| + 1 ensures CoversClearOrSkc((metars + [currentItem])[k].skyCondition) {
            if k < |metars| { assert (metars + [currentItem])[k] == metars[k]; }
          }
        }
        metars := metars + [currentItem];
        currentState := Outside;
        return;
      }
      if currentState == InMetar {
        var leaf := MetarLeafOf(name);
        if leaf.Some? {
          match ApplyMetarLeaf(currentItem, leaf.value, buffer, conv) {
            case Assign(m) =>
              currentItem := m;
            case Abort(msg) =>
              parsingErrorMessage := msg;
              aborted := true;
          }
        }
      }
    }

    /** `parser(_:foundCharacters:)`: text accumulates in the buffer. */
    method FoundCharacters(chars: string)
      requires Valid()
      modifies this`buffer
      ensures Valid()
      ensures Snapshot() == MetarStep(conv, old(Snapshot()), Text(chars))
      ensures buffer == old(buffer) + chars
    {
      buffer := buffer + chars;
    }

    /**
     * `decode(with:)`: runs a fresh parse over the document's events, stopping
     * at the first abort or well-formedness failure. A parse that does not
     * complete throws `parsing(message:)` with the delegate's message; one
     * that completes returns every observation collected so far, in document
     * order (the list is never cleared between calls).
     */
    method Decode(events: seq<Event>) returns (r: Result<seq<Metar>, AvWeatherError>)
      requires Valid()
      modifies this
      ensures unchanged(this`queryParams)
      ensures Valid()
      ensures old(metars) <= metars
      ensures r.Failure? ==> r.error == Parsing(parsingErrorMessage)
      ensures r.Failure? <==> aborted || Malformed in events
      ensures r.Success? ==> r.value == metars && AllGrounded(r.value) && AllCoversClearOrSkc(r.value)
      ensures var run := Deliver(conv, MetarStep, MetarHalted, old(Snapshot()).(aborted := false), events);
        Snapshot() == run.state &&
        (r.Failure? <==> run.malformed || run.state.aborted) &&
        (r.Success? ==> r.value == run.state.metars)
    {
      aborted := false;
      ghost var s0 := Snapshot();
      var failed := false;
      var i := 0;
      while i < |events| && !aborted && !failed
        invariant 0 <= i <= |events|
        invariant unchanged(this`queryParams)
        invariant Valid()
        invariant old(metars) <= metars
        invariant failed <==> Malformed in events[..i]
        invariant Deliver(conv, MetarStep, MetarHalted, s0, events[..i]) == Delivery(Snapshot(), failed)
      {
        DeliverNext(conv, MetarStep, MetarHalted, s0, events, i);
        match events[i] {
          case Start(name, attrs) => DidStartElement(name, attrs);
          case End(name) => DidEndElement(name);
          case Text(chars) => FoundCharacters(chars);
          case Malformed => failed := true;
        }
        assert events[..i + 1] == events[..i] + [events[i]];
        i := i + 1;
      }
      if i < |events| {
        DeliverHalts(conv, MetarStep, MetarHalted, s0, events, i);
      } else {
        assert events[..i] == events;
      }
      if aborted || failed {
        return Failure(Parsing(parsingErrorMessage));
      }
      assert events[..i] == events;
      return Success(metars);
    }
  }
}
