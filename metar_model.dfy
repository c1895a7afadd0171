/**
 * The METAR record of the strict decoder (Models/Metar.swift): one surface
 * observation, its cloud layers and the closed raw-value enums it holds.
 */
module MetarModel {
  import opened Primitives
  import opened SkyCover

  /** `Metar.MetarType`: a routine report (METAR) or a special one (SPECI). */
  datatype MetarType = Routine | Special

  function MetarTypeRaw(t: MetarType): string {
    match t
    case Routine => "METAR"
    case Special => "SPECI"
  }

  /** `MetarType(rawValue:)`. */
  function MetarTypeFromRaw(s: string): (r: Option<MetarType>)
    ensures r.Some? ==> MetarTypeRaw(r.value) == s
  {
    match s
    case "METAR" => Some(Routine)
    case "SPECI" => Some(Special)
    case _ => None
  }

  lemma MetarTypeFromRawRaw(t: MetarType)
    ensures MetarTypeFromRaw(MetarTypeRaw(t)) == Some(t)
    ensures forall u :: MetarTypeRaw(u) == MetarTypeRaw(t) ==> u == t
  {
    match t
    case Routine => case Special =>
  }

  /** `Metar.QualityControlFlags`: facts about the reporting station. */
  datatype QualityControlFlags =
    | Corrected | Auto | AutoStation | MaintenanceIndicator | NoSignal
    | LightningSensorOff | FreezingRainSensorOff | PresentWeatherOff

  function QualityControlFlagsRaw(q: QualityControlFlags): string {
    match q
    case Corrected => "Corrected"
    case Auto => "Fully Automated"
    case AutoStation => "Indicates that the automated station type is one of the following: A01|A01A|A02|A02A|AOA|AWOS"
    case MaintenanceIndicator => "Maintenance check indicator - maintenance is needed"
    case NoSignal => "No signal"
    case LightningSensorOff => "The lightning detection sensor is not operating. Thunderstorm information is not available."
    case FreezingRainSensorOff => "The freezing rain sensor is not operating"
    case PresentWeatherOff => "The present weather sensor is not operating"
  }

  /** `Metar.FlightCategory`. */
  datatype FlightCategory = Vfr | Mvfr | Ifr | Lifr

  function FlightCategoryRaw(c: FlightCategory): string {
    match c
    case Vfr => "VFR"
    case Mvfr => "MVFR"
    case Ifr => "IFR"
    case Lifr => "LIFR"
  }

  /** `FlightCategory(rawValue:)`. */
  function FlightCategoryFromRaw(s: string): (r: Option<FlightCategory>)
    ensures r.Some? ==> FlightCategoryRaw(r.value) == s
  {
    match s
    case "VFR" => Some(Vfr)
    case "MVFR" => Some(Mvfr)
    case "IFR" => Some(Ifr)
    case "LIFR" => Some(Lifr)
    case _ => None
  }

  lemma FlightCategoryFromRawRaw(c: FlightCategory)
    ensures FlightCategoryFromRaw(FlightCategoryRaw(c)) == Some(c)
    ensures forall d :: FlightCategoryRaw(d) == FlightCategoryRaw(c) ==> d == c
  {
    match c
    case Vfr => case Mvfr => case Ifr => case Lifr =>
  }

  /** `Metar.SkyCondition` (its `id: UUID` is left out). */
  datatype SkyCondition = SkyCondition(skyCover: SkyCoverConditions, base: int)

  /** One surface observation. */
  datatype Metar = Metar(
    rawText: string,
    stationId: string,
    observationTime: Date,
    latitude: Double,
    longitude: Double,
    temp: Double,
    dewpoint: Double,
    windDirection: int,
    windSpeed: int,
    windGust: int,
    visibility: Double,
    altimeter: Double,
    seaLevelPressure: Double,
    qualityControlFlags: seq<QualityControlFlags>,
    skyCondition: seq<SkyCondition>,
    flightCategory: FlightCategory,
    threeHourPressureTendency: Double,
    maxTempPastSixHours: Double,
    minTempPastSixHours: Double,
    maxTempPastTwentyFourHours: Double,
    minTempPastTwentyFourHours: Double,
    precipSinceLastMetar: Double,
    precipPastThreeHours: Double,
    precipPastSixHours: Double,
    precipPastTwentyFourHours: Double,
    snowDepth: Double,
    verticalVisibility: int,
    metarType: MetarType,
    stationElevation: Double)

  /** A field of an observation that an element can set, with its value. */
  datatype MetarValue =
    | Chars(s: string)
    | Instant(d: Date)
    | Real(x: Double)
    | Whole(n: int)
    | Category(c: FlightCategory)
    | Kind(k: MetarType)

  /** The leaf elements of a `METAR` group. */
  datatype MetarLeaf =
    | RawText | StationId | ObservationTime | Latitude | Longitude | TempC | DewpointC
    | WindDirDegrees | WindSpeedKt | WindGustKt | VisibilityStatuteMi | AltimInHg
    | SeaLevelPressureMb | FlightCategoryElement | ThreeHrPressureTendencyMb
    | MaxTC | MinTC | MaxT24hrC | MinT24hrC | PrecipIn | Pcp3hrIn | Pcp6hrIn
    | Pcp24hrIn | SnowIn | VertVisFt | MetarTypeElement | Elevation

  function MetarLeafName(l: MetarLeaf): string {
    match l
    case RawText => "raw_text"
    case StationId => "station_id"
    case ObservationTime => "observation_time"
    case Latitude => "latitude"
    case Longitude => "longitude"
    case TempC => "temp_c"
    case DewpointC => "dewpoint_c"
    case WindDirDegrees => "wind_dir_degrees"
    case WindSpeedKt => "wind_speed_kt"
    case WindGustKt => "wind_gust_kt"
    case VisibilityStatuteMi => "visibility_statute_mi"
    case AltimInHg => "altim_in_hg"
    case SeaLevelPressureMb => "sea_level_pressure_mb"
    case FlightCategoryElement => "flight_category"
    case ThreeHrPressureTendencyMb => "three_hr_pressure_tendency_mb"
    case MaxTC => "maxT_c"
    case MinTC => "minT_c"
    case MaxT24hrC => "maxT24hr_c"
    case MinT24hrC => "minT24hr_c"
    case PrecipIn => "precip_in"
    case Pcp3hrIn => "pcp3hr_in"
    case Pcp6hrIn => "pcp6hr_in"
    case Pcp24hrIn => "pcp24hr_in"
    case SnowIn => "snow_in"
    case VertVisFt => "vert_vis_ft"
    case MetarTypeElement => "metar_type"
    case Elevation => "elevation"
  }

  /** Every leaf element, in the order the decoder's `switch` lists them. */
  const AllMetarLeaves: seq<MetarLeaf> := [
    RawText, StationId, ObservationTime, Latitude, Longitude, TempC, DewpointC,
    WindDirDegrees, WindSpeedKt, WindGustKt, VisibilityStatuteMi, AltimInHg,
    SeaLevelPressureMb, FlightCategoryElement, ThreeHrPressureTendencyMb,
    MaxTC, MinTC, MaxT24hrC, MinT24hrC, PrecipIn, Pcp3hrIn, Pcp6hrIn,
    Pcp24hrIn, SnowIn, VertVisFt, MetarTypeElement, Elevation]

  lemma AllMetarLeavesListed(l: MetarLeaf)
    ensures l in AllMetarLeaves
  {
    match l
    case RawText => case StationId => case ObservationTime => case Latitude =>
    case Longitude => case TempC => case DewpointC => case WindDirDegrees =>
    case WindSpeedKt => case WindGustKt => case VisibilityStatuteMi => case AltimInHg =>
    case SeaLevelPressureMb => case FlightCategoryElement => case ThreeHrPressureTendencyMb =>
    case MaxTC => case MinTC => case MaxT24hrC => case MinT24hrC => case PrecipIn =>
    case Pcp3hrIn => case Pcp6hrIn => case Pcp24hrIn => case SnowIn => case VertVisFt =>
    case MetarTypeElement => case Elevation =>
  }

  /** The leaf a `METAR` child element's name denotes, if any. */
  function MetarLeafOf(name: string): (r: Option<MetarLeaf>)
    ensures r.Some? ==> MetarLeafName(r.value) == name
    ensures r.None? ==> forall l :: MetarLeafName(l) != name
  {
    var r := FindNamed(name, AllMetarLeaves, MetarLeafName);
    if r.None? then
      assert forall l :: MetarLeafName(l) != name by {
        forall l ensures MetarLeafName(l) != name { AllMetarLeavesListed(l); }
      }
      r
    else r
  }

  // Three groups of leaves, so that the distinctness of the 27 names is
  // proved in three small steps.
  const LeavesA: set<MetarLeaf> := {
    RawText, StationId, ObservationTime, Latitude, Longitude, TempC, DewpointC, WindDirDegrees, WindSpeedKt}
  const LeavesB: set<MetarLeaf> := {
    WindGustKt, VisibilityStatuteMi, AltimInHg, SeaLevelPressureMb, FlightCategoryElement,
    ThreeHrPressureTendencyMb, MaxTC, MinTC, MaxT24hrC}

  /** The first nine leaves have names distinct from every other leaf's. */
  lemma {:induction false} MetarLeafNamesDistinctA(l: MetarLeaf, m: MetarLeaf)
    requires l != m && l in LeavesA
    ensures MetarLeafName(l) != MetarLeafName(m)
  {
    match l
    case RawText => case StationId => case ObservationTime => case Latitude =>
    case Longitude => case TempC => case DewpointC => case WindDirDegrees =>
    case WindSpeedKt =>
  }

  /** The middle nine leaves have names distinct from every other leaf's. */
  lemma {:induction false} MetarLeafNamesDistinctB(l: MetarLeaf, m: MetarLeaf)
    requires l != m && l in LeavesB
    ensures MetarLeafName(l) != MetarLeafName(m)
  {
    match l
    case WindGustKt => case VisibilityStatuteMi => case AltimInHg =>
    case SeaLevelPressureMb => case FlightCategoryElement => case ThreeHrPressureTendencyMb =>
    case MaxTC => case MinTC => case MaxT24hrC =>
  }

  /** The last nine leaves have names distinct from every other leaf's. */
  lemma {:induction false} MetarLeafNamesDistinctC(l: MetarLeaf, m: MetarLeaf)
    requires l != m && l !in LeavesA + LeavesB
    ensures MetarLeafName(l) != MetarLeafName(m)
  {
    match l
    case MinT24hrC => case PrecipIn => case Pcp3hrIn => case Pcp6hrIn =>
    case Pcp24hrIn => case SnowIn => case VertVisFt => case MetarTypeElement => case Elevation =>
  }

  /** Every leaf is recognised by its own element name, and by no other leaf's. */
  lemma MetarLeafOfName(l: MetarLeaf)
    ensures MetarLeafOf(MetarLeafName(l)) == Some(l)
  {
    var r := MetarLeafOf(MetarLeafName(l));
    var m := r.value;
    if m != l {
      if m in LeavesA {
        MetarLeafNamesDistinctA(m, l);
      } else if m in LeavesB {
        MetarLeafNamesDistinctB(m, l);
      } else {
        MetarLeafNamesDistinctC(m, l);
      }
    }
  }

  /** What a leaf's text is converted to. */
  datatype LeafKind = TextLeaf | DateLeaf | IntLeaf | DoubleLeaf | CategoryLeaf | TypeLeaf

  function KindOf(l: MetarLeaf): LeafKind {
    match l
    case RawText => TextLeaf
    case StationId => TextLeaf
    case ObservationTime => DateLeaf
    case WindDirDegrees => IntLeaf
    case WindSpeedKt => IntLeaf
    case WindGustKt => IntLeaf
    case VertVisFt => IntLeaf
    case FlightCategoryElement => CategoryLeaf
    case MetarTypeElement => TypeLeaf
    case _ => DoubleLeaf
  }

  /** The field of `m` that the leaf element `l` fills. */
  function MetarField(m: Metar, l: MetarLeaf): MetarValue {
    match l
    case RawText => Chars(m.rawText)
    case StationId => Chars(m.stationId)
    case ObservationTime => Instant(m.observationTime)
    case Latitude => Real(m.latitude)
    case Longitude => Real(m.longitude)
    case TempC => Real(m.temp)
    case DewpointC => Real(m.dewpoint)
    case WindDirDegrees => Whole(m.windDirection)
    case WindSpeedKt => Whole(m.windSpeed)
    case WindGustKt => Whole(m.windGust)
    case VisibilityStatuteMi => Real(m.visibility)
    case AltimInHg => Real(m.altimeter)
    case SeaLevelPressureMb => Real(m.seaLevelPressure)
    case FlightCategoryElement => Category(m.flightCategory)
    case ThreeHrPressureTendencyMb => Real(m.threeHourPressureTendency)
    case MaxTC => Real(m.maxTempPastSixHours)
    case MinTC => Real(m.minTempPastSixHours)
    case MaxT24hrC => Real(m.maxTempPastTwentyFourHours)
    case MinT24hrC => Real(m.minTempPastTwentyFourHours)
    case PrecipIn => Real(m.precipSinceLastMetar)
    case Pcp3hrIn => Real(m.precipPastThreeHours)
    case Pcp6hrIn => Real(m.precipPastSixHours)
    case Pcp24hrIn => Real(m.precipPastTwentyFourHours)
    case SnowIn => Real(m.snowDepth)
    case VertVisFt => Whole(m.verticalVisibility)
    case MetarTypeElement => Kind(m.metarType)
    case Elevation => Real(m.stationElevation)
  }

  /**
   * `Metar()`: every number is 0, both lists are empty, the text fields are
   * empty, the observation time is `distantPast`, and the report is a VFR METAR.
   */
  function NewMetar(): (m: Metar)
    ensures forall l :: KindOf(l) == DoubleLeaf ==> MetarField(m, l) == Real(ZeroDouble)
    ensures forall l :: KindOf(l) == IntLeaf ==> MetarField(m, l) == Whole(0)
    ensures forall l :: KindOf(l) == TextLeaf ==> MetarField(m, l) == Chars("")
    ensures MetarField(m, ObservationTime) == Instant(DistantPast)
    ensures MetarField(m, FlightCategoryElement) == Category(Vfr)
    ensures MetarField(m, MetarTypeElement) == Kind(Routine)
    ensures m.qualityControlFlags == [] && m.skyCondition == []
  {
    Metar("", "", DistantPast, ZeroDouble, ZeroDouble, ZeroDouble, ZeroDouble, 0, 0, 0,
          ZeroDouble, ZeroDouble, ZeroDouble, [], [], Vfr, ZeroDouble, ZeroDouble, ZeroDouble,
          ZeroDouble, ZeroDouble, ZeroDouble, ZeroDouble, ZeroDouble, ZeroDouble, ZeroDouble,
          0, Routine, ZeroDouble)
  }

  // ---------------------------------------------------------------------
  // "If skyCover is CLR then base is 0" (documented on Metar.SkyCondition).

  ghost predicate ClearLayersGrounded(layers: seq<SkyCondition>) {
    forall i :: 0 <= i < |layers| ==> layers[i].skyCover == Clr ==> layers[i].base == 0
  }

  ghost predicate AllGrounded(ms: seq<Metar>) {
    forall i :: 0 <= i < |ms| ==> ClearLayersGrounded(ms[i].skyCondition)
  }

  /** `Metar.SkyCondition` lets a clear layer carry any base: the invariant is the decoder's to keep. */
  lemma ConstructorDoesNotGround()
    ensures !ClearLayersGrounded([SkyCondition(Clr, 2500)])
  {
    var layers := [SkyCondition(Clr, 2500)];
    assert layers[0].skyCover == Clr && layers[0].base != 0;
  }

  lemma GroundedAppend(ms: seq<Metar>, m: Metar)
    requires AllGrounded(ms) && ClearLayersGrounded(m.skyCondition)
    ensures AllGrounded(ms + [m])
  {
    var u := ms + [m];
    forall i | 0 <= i < |u| ensures ClearLayersGrounded(u[i].skyCondition) {
      if i < |ms| { assert u[i] == ms[i]; }
    }
  }
}
