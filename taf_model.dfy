/**
 * The TAF record family: a terminal forecast, its forecast periods and the
 * value types and closed raw-value enums they hold (Models/TAF.swift).
 */
module TafModel {
  import opened Primitives
  import opened SkyCover

  datatype CloudType = Cb | Tcu | Cu

  function CloudTypeRaw(t: CloudType): string {
    match t
    case Cb => "CB"
    case Tcu => "TCU"
    case Cu => "CU"
  }

  /** `CloudType(rawValue:)`. */
  function CloudTypeFromRaw(s: string): (r: Option<CloudType>)
    ensures r.Some? ==> CloudTypeRaw(r.value) == s
  {
    match s
    case "CB" => Some(Cb)
    case "TCU" => Some(Tcu)
    case "CU" => Some(Cu)
    case _ => None
  }

  lemma CloudTypeFromRawRaw(t: CloudType)
    ensures CloudTypeFromRaw(CloudTypeRaw(t)) == Some(t)
    ensures forall u :: CloudTypeRaw(u) == CloudTypeRaw(t) ==> u == t
  {
    match t
    case Cb => case Tcu => case Cu =>
  }

  datatype ChangeIndicator = Tempo | Becmg | Fm | Prob

  function ChangeIndicatorRaw(c: ChangeIndicator): string {
    match c
    case Tempo => "TEMPO"
    case Becmg => "BECMG"
    case Fm => "FM"
    case Prob => "PROB"
  }

  /** `ChangeIndicator(rawValue:)`. */
  function ChangeIndicatorFromRaw(s: string): (r: Option<ChangeIndicator>)
    ensures r.Some? ==> ChangeIndicatorRaw(r.value) == s
  {
    match s
    case "TEMPO" => Some(Tempo)
    case "BECMG" => Some(Becmg)
    case "FM" => Some(Fm)
    case "PROB" => Some(Prob)
    case _ => None
  }

  lemma ChangeIndicatorFromRawRaw(c: ChangeIndicator)
    ensures ChangeIndicatorFromRaw(ChangeIndicatorRaw(c)) == Some(c)
    ensures forall d :: ChangeIndicatorRaw(d) == ChangeIndicatorRaw(c) ==> d == c
  {
    match c
    case Tempo => case Becmg => case Fm => case Prob =>
  }

  /** A cloud layer of a forecast period (the source's `id: UUID` is left out). */
  datatype SkyCondition = SkyCondition(skyCover: SkyCoverConditions, cloudBaseFtAgl: int, cloudType: Option<CloudType>)

  /** `SkyCondition.init(skyCover:cloudBaseFtAgl:cloudType:)`; it does not itself enforce "CLR implies base 0". */
  function NewSkyCondition(skyCover: SkyCoverConditions, cloudBaseFtAgl: int, cloudType: Option<CloudType> := None): (r: SkyCondition)
    ensures r.skyCover == skyCover && r.cloudBaseFtAgl == cloudBaseFtAgl && r.cloudType == cloudType
  {
    SkyCondition(skyCover, cloudBaseFtAgl, cloudType)
  }

  datatype TurbulenceCondition = TurbulenceCondition(turbulenceIntensity: int, turbulenceMinAltFtAgl: int, turbulenceMaxAltFtAgl: int)

  function NewTurbulenceCondition(turbulenceIntensity: int := 0, turbulenceMinAltFtAgl: int := 0, turbulenceMaxAltFtAgl: int := 0): (r: TurbulenceCondition)
    ensures r.turbulenceIntensity == turbulenceIntensity
    ensures r.turbulenceMinAltFtAgl == turbulenceMinAltFtAgl && r.turbulenceMaxAltFtAgl == turbulenceMaxAltFtAgl
  {
    TurbulenceCondition(turbulenceIntensity, turbulenceMinAltFtAgl, turbulenceMaxAltFtAgl)
  }

  datatype IcingCondition = IcingCondition(icingIntensity: int, icingMinAltFtAgl: int, icingMaxAltFtAgl: int)

  function NewIcingCondition(icingIntensity: int := 0, icingMinAltFtAgl: int := 0, icingMaxAltFtAgl: int := 0): (r: IcingCondition)
    ensures r.icingIntensity == icingIntensity
    ensures r.icingMinAltFtAgl == icingMinAltFtAgl && r.icingMaxAltFtAgl == icingMaxAltFtAgl
  {
    IcingCondition(icingIntensity, icingMinAltFtAgl, icingMaxAltFtAgl)
  }

  datatype Temperature = Temperature(validTime: Date, sfcTempC: Option<Double>, maxTempC: Option<Double>, minTempC: Option<Double>)

  function NewTemperature(validTime: Date, sfcTempC: Option<Double> := None, maxTempC: Option<Double> := None, minTempC: Option<Double> := None): (r: Temperature)
    ensures r.validTime == validTime && r.sfcTempC == sfcTempC && r.maxTempC == maxTempC && r.minTempC == minTempC
  {
    Temperature(validTime, sfcTempC, maxTempC, minTempC)
  }

  /** One forecast period of a TAF. */
  datatype Forecast = Forecast(
    fcstTimeFrom: Date,
    fcstTimeTo: Date,
    changeIndicator: Option<ChangeIndicator>,
    timeBecoming: Option<Date>,
    probability: Option<int>,
    windDirDegrees: Option<int>,
    windSpeedKt: Option<int>,
    windGustKt: Option<int>,
    windShearHgtFtAgl: Option<int>,
    windShearDirDegrees: Option<int>,
    windShearSpeedKt: Option<int>,
    visibilityStatuteMi: Option<Double>,
    altimInHg: Option<Double>,
    vertVisFt: Option<Double>,
    wxString: Option<string>,
    notDecoded: Option<string>,
    skyCondition: seq<SkyCondition>,
    turbulenceCondition: seq<TurbulenceCondition>,
    icingCondition: seq<IcingCondition>,
    temperature: seq<Temperature>)

  /** One terminal forecast. */
  datatype TAF = TAF(
    rawText: string,
    stationId: string,
    issueTime: Date,
    bulletinTime: Date,
    validTimeFrom: Date,
    validTimeTo: Date,
    remarks: Option<string>,
    latitude: Double,
    longitude: Double,
    elevationM: Double,
    forecast: seq<Forecast>)

  /** A field of a forecast period that an element can set, with its value. */
  datatype ForecastValue =
    | Time(d: Date)
    | OptTime(od: Option<Date>)
    | OptChange(oc: Option<ChangeIndicator>)
    | OptInt(oi: Option<int>)
    | OptReal(ox: Option<Double>)
    | OptText(os: Option<string>)

  /** The leaf elements of a `forecast` group. */
  datatype ForecastLeaf =
    | FcstTimeFrom | FcstTimeTo | Change | TimeBecoming | Probability
    | WindDirDegrees | WindSpeedKt | WindGustKt | WindShearDirDegrees
    | WindShearSpeedKt | WindShearHgtFtAgl | VisibilityStatuteMi | AltimInHg
    | VertVisFt | WxString | NotDecoded

  function ForecastLeafName(l: ForecastLeaf): string {
    match l
    case FcstTimeFrom => "fcst_time_from"
    case FcstTimeTo => "fcst_time_to"
    case Change => "change_indicator"
    case TimeBecoming => "time_becoming"
    case Probability => "probability"
    case WindDirDegrees => "wind_dir_degrees"
    case WindSpeedKt => "wind_speed_kt"
    case WindGustKt => "wind_gust_kt"
    case WindShearDirDegrees => "wind_shear_dir_degrees"
    case WindShearSpeedKt => "wind_shear_speed_kt"
    case WindShearHgtFtAgl => "wind_shear_hgt_ft_agl"
    case VisibilityStatuteMi => "visibility_statute_mi"
    case AltimInHg => "altim_in_hg"
    case VertVisFt => "vert_vis_ft"
    case WxString => "wx_string"
    case NotDecoded => "not_decoded"
  }

  /** The leaf a `forecast` child element's name denotes, if any. */
  function ForecastLeafOf(name: string): (r: Option<ForecastLeaf>)
    ensures r.Some? ==> ForecastLeafName(r.value) == name
  {
    match name
    case "fcst_time_from" => Some(FcstTimeFrom)
    case "fcst_time_to" => Some(FcstTimeTo)
    case "change_indicator" => Some(Change)
    case "time_becoming" => Some(TimeBecoming)
    case "probability" => Some(Probability)
    case "wind_dir_degrees" => Some(WindDirDegrees)
    case "wind_speed_kt" => Some(WindSpeedKt)
    case "wind_gust_kt" => Some(WindGustKt)
    case "wind_shear_dir_degrees" => Some(WindShearDirDegrees)
    case "wind_shear_speed_kt" => Some(WindShearSpeedKt)
    case "wind_shear_hgt_ft_agl" => Some(WindShearHgtFtAgl)
    case "visibility_statute_mi" => Some(VisibilityStatuteMi)
    case "altim_in_hg" => Some(AltimInHg)
    case "vert_vis_ft" => Some(VertVisFt)
    case "wx_string" => Some(WxString)
    case "not_decoded" => Some(NotDecoded)
    case _ => None
  }

  /** Every leaf is recognised by its own element name, and no two leaves share one. */
  lemma ForecastLeafOfName(l: ForecastLeaf)
    ensures ForecastLeafOf(ForecastLeafName(l)) == Some(l)
    ensures forall m :: ForecastLeafName(m) == ForecastLeafName(l) ==> m == l
  {
    match l
    case FcstTimeFrom => case FcstTimeTo => case Change => case TimeBecoming =>
    case Probability => case WindDirDegrees => case WindSpeedKt => case WindGustKt =>
    case WindShearDirDegrees => case WindShearSpeedKt => case WindShearHgtFtAgl =>
    case VisibilityStatuteMi => case AltimInHg => case VertVisFt => case WxString =>
    case NotDecoded =>
  }

  /** The field of `f` that the leaf element `l` fills. */
  function ForecastField(f: Forecast, l: ForecastLeaf): ForecastValue {
    match l
    case FcstTimeFrom => Time(f.fcstTimeFrom)
    case FcstTimeTo => Time(f.fcstTimeTo)
    case Change => OptChange(f.changeIndicator)
    case TimeBecoming => OptTime(f.timeBecoming)
    case Probability => OptInt(f.probability)
    case WindDirDegrees => OptInt(f.windDirDegrees)
    case WindSpeedKt => OptInt(f.windSpeedKt)
    case WindGustKt => OptInt(f.windGustKt)
    case WindShearDirDegrees => OptInt(f.windShearDirDegrees)
    case WindShearSpeedKt => OptInt(f.windShearSpeedKt)
    case WindShearHgtFtAgl => OptInt(f.windShearHgtFtAgl)
    case VisibilityStatuteMi => OptReal(f.visibilityStatuteMi)
    case AltimInHg => OptReal(f.altimInHg)
    case VertVisFt => OptReal(f.vertVisFt)
    case WxString => OptText(f.wxString)
    case NotDecoded => OptText(f.notDecoded)
  }

  /** A field of a TAF report that an element can set, with its value. */
  datatype TafValue =
    | Chars(s: string)
    | Remark(os: Option<string>)
    | Instant(d: Date)
    | Real(x: Double)

  /** The leaf elements of a `TAF` outside its forecast groups. */
  datatype TafLeaf =
    | RawText | StationId | IssueTime | BulletinTime | ValidTimeFrom
    | ValidTimeTo | Remarks | Latitude | Longitude | ElevationM

  function TafLeafName(l: TafLeaf): string {
    match l
    case RawText => "raw_text"
    case StationId => "station_id"
    case IssueTime => "issue_time"
    case BulletinTime => "bulletin_time"
    case ValidTimeFrom => "valid_time_from"
    case ValidTimeTo => "valid_time_to"
    case Remarks => "remarks"
    case Latitude => "latitude"
    case Longitude => "longitude"
    case ElevationM => "elevation_m"
  }

  /** The leaf a `TAF` child element's name denotes, if any. */
  function TafLeafOf(name: string): (r: Option<TafLeaf>)
    ensures r.Some? ==> TafLeafName(r.value) == name
  {
    match name
    case "raw_text" => Some(RawText)
    case "station_id" => Some(StationId)
    case "issue_time" => Some(IssueTime)
    case "bulletin_time" => Some(BulletinTime)
    case "valid_time_from" => Some(ValidTimeFrom)
    case "valid_time_to" => Some(ValidTimeTo)
    case "remarks" => Some(Remarks)
    case "latitude" => Some(Latitude)
    case "longitude" => Some(Longitude)
    case "elevation_m" => Some(ElevationM)
    case _ => None
  }

  /** Every leaf is recognised by its own element name, and no two leaves share one. */
  lemma TafLeafOfName(l: TafLeaf)
    ensures TafLeafOf(TafLeafName(l)) == Some(l)
    ensures forall m :: TafLeafName(m) == TafLeafName(l) ==> m == l
  {
    match l
    case RawText => case StationId => case IssueTime => case BulletinTime =>
    case ValidTimeFrom => case ValidTimeTo => case Remarks => case Latitude =>
    case Longitude => case ElevationM =>
  }

  /** The field of `t` that the leaf element `l` fills. */
  function TafField(t: TAF, l: TafLeaf): TafValue {
    match l
    case RawText => Chars(t.rawText)
    case StationId => Chars(t.stationId)
    case IssueTime => Instant(t.issueTime)
    case BulletinTime => Instant(t.bulletinTime)
    case ValidTimeFrom => Instant(t.validTimeFrom)
    case ValidTimeTo => Instant(t.validTimeTo)
    case Remarks => Remark(t.remarks)
    case Latitude => Real(t.latitude)
    case Longitude => Real(t.longitude)
    case ElevationM => Real(t.elevationM)
  }

  /**
   * `Forecast()`: every optional field is absent, so that "not reported" is
   * distinguishable from a reported 0, every list is empty, and both period
   * bounds are `distantPast`.
   */
  function NewForecast(): (f: Forecast)
    ensures forall l :: l !in {FcstTimeFrom, FcstTimeTo} ==>
      ForecastField(f, l) in {OptTime(None), OptChange(None), OptInt(None), OptReal(None), OptText(None)}
    ensures ForecastField(f, FcstTimeFrom) == ForecastField(f, FcstTimeTo) == Time(DistantPast)
    ensures f.skyCondition == [] && f.turbulenceCondition == [] && f.icingCondition == [] && f.temperature == []
  {
    Forecast(DistantPast, DistantPast, None, None, None, None, None, None, None, None, None,
             None, None, None, None, None, [], [], [], [])
  }

  /**
   * `TAF()`: no forecast periods, no remarks, all four times `distantPast`
   * and a station at latitude, longitude and elevation 0.
   */
  function NewTaf(): (t: TAF)
    ensures t.forecast == [] && t.remarks.None?
    ensures forall l :: l in {IssueTime, BulletinTime, ValidTimeFrom, ValidTimeTo} ==>
      TafField(t, l) == Instant(DistantPast)
    ensures forall l :: l in {Latitude, Longitude, ElevationM} ==> TafField(t, l) == Real(ZeroDouble)
    ensures TafField(t, RawText) == TafField(t, StationId) == Chars("")
  {
    TAF("", "", DistantPast, DistantPast, DistantPast, DistantPast, None,
        ZeroDouble, ZeroDouble, ZeroDouble, [])
  }

  // ---------------------------------------------------------------------
  // "If skyCover is CLR then cloudBaseFtAgl is 0" (documented on
  // TAF.SkyCondition): a property of what the decoder builds, not of the type.

  ghost predicate ClearLayersGrounded(layers: seq<SkyCondition>) {
    forall i :: 0 <= i < |layers| ==> layers[i].skyCover == Clr ==> layers[i].cloudBaseFtAgl == 0
  }

  ghost predicate ForecastGrounded(f: Forecast) {
    ClearLayersGrounded(f.skyCondition)
  }

  ghost predicate TafGrounded(t: TAF) {
    forall i :: 0 <= i < |t.forecast| ==> ForecastGrounded(t.forecast[i])
  }

  ghost predicate AllGrounded(ts: seq<TAF>) {
    forall i :: 0 <= i < |ts| ==> TafGrounded(ts[i])
  }

  /** The constructor lets a clear layer carry any base: the invariant is the decoder's to keep. */
  lemma ConstructorDoesNotGround()
    ensures !ClearLayersGrounded([NewSkyCondition(Clr, 1200)])
  {
    var layers := [NewSkyCondition(Clr, 1200)];
    assert layers[0].skyCover == Clr && layers[0].cloudBaseFtAgl != 0;
  }

  lemma GroundedAppend(ts: seq<TAF>, t: TAF)
    requires AllGrounded(ts) && TafGrounded(t)
    ensures AllGrounded(ts + [t])
  {
    var u := ts + [t];
    forall i | 0 <= i < |u| ensures TafGrounded(u[i]) {
      if i < |ts| { assert u[i] == ts[i]; }
    }
  }

  lemma GroundedPermutation(ts: seq<TAF>, us: seq<TAF>)
    requires AllGrounded(ts) && multiset(us) == multiset(ts)
    ensures AllGrounded(us)
  {
    forall i | 0 <= i < |us| ensures TafGrounded(us[i]) {
      assert us[i] in multiset(ts);
      var j :| 0 <= j < |ts| && ts[j] == us[i];
    }
  }
}
