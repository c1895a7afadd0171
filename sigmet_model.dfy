/**
 * The SIGMET record of the aviation weather JSON feeds: its GeoJSON-like
 * feature shape, the derived `text`, `type` and `severityValue`, the
 * raw-value enums, the wire names of the property keys, and the
 * shape-driven coordinate decoder and its encoder.
 */
module SigmetModel {
  import opened Primitives
  import opened JsonValues

  /** Which family a SIGMET belongs to, and so which properties it carries. */
  datatype SigmetType = International | UsOnly

  /** Change of intensity. */
  datatype Change = Intsf | Nc | Wkn

  function ChangeRaw(c: Change): string {
    match c
    case Intsf => "INTSF"
    case Nc => "NC"
    case Wkn => "WKN"
  }

  function ChangeFromRaw(s: string): (r: Option<Change>)
    ensures r.Some? ==> ChangeRaw(r.value) == s
    ensures r.None? ==> forall c :: ChangeRaw(c) != s
  {
    if s == "INTSF" then Some(Intsf)
    else if s == "NC" then Some(Nc)
    else if s == "WKN" then Some(Wkn)
    else None
  }

  lemma ChangeFromRawRaw(c: Change)
    ensures ChangeFromRaw(ChangeRaw(c)) == Some(c)
  {
    match c
    case Intsf => case Nc => case Wkn =>
  }

  /** The region shape the feed could decode from the report; UNK when it could not. */
  datatype GeoType = AreaGeo | LineGeo | PointGeo | UnknownGeo

  function GeoTypeRaw(g: GeoType): string {
    match g
    case AreaGeo => "AREA"
    case LineGeo => "LINE"
    case PointGeo => "POINT"
    case UnknownGeo => "UNK"
  }

  function GeoTypeFromRaw(s: string): (r: Option<GeoType>)
    ensures r.Some? ==> GeoTypeRaw(r.value) == s
    ensures r.None? ==> forall g :: GeoTypeRaw(g) != s
  {
    if s == "AREA" then Some(AreaGeo)
    else if s == "LINE" then Some(LineGeo)
    else if s == "POINT" then Some(PointGeo)
    else if s == "UNK" then Some(UnknownGeo)
    else None
  }

  lemma GeoTypeFromRawRaw(g: GeoType)
    ensures GeoTypeFromRaw(GeoTypeRaw(g)) == Some(g)
  {
    match g
    case AreaGeo => case LineGeo => case PointGeo => case UnknownGeo =>
  }

  /** Every hazard an international or a US SIGMET can name. */
  datatype Hazard =
    | Ice | Mtw | Tc | Ts | Tsgr | Ss | Ds | Turb | Llws | Va | RdoactCld
    | Conv | Icing | Ifr | Mtnobsc | Ash

  function HazardRaw(h: Hazard): string {
    match h
    case Ice => "ICE"
    case Mtw => "MTW"
    case Tc => "TC"
    case Ts => "TS"
    case Tsgr => "TSGR"
    case Ss => "SS"
    case Ds => "DS"
    case Turb => "TURB"
    case Llws => "LLWS"
    case Va => "VA"
    case RdoactCld => "RDOACT CLD"
    case Conv => "CONVECTIVE"
    case Icing => "ICING"
    case Ifr => "IFR"
    case Mtnobsc => "MTN OBSCN"
    case Ash => "ASH"
  }

  /** The hazards an international report can name; the rest are US-only. */
  const InternationalHazards: set<Hazard> := {Ice, Mtw, Tc, Ts, Tsgr, Ss, Ds, Turb, Llws, Va, RdoactCld}

  const AllHazards: seq<Hazard> :=
    [Ice, Mtw, Tc, Ts, Tsgr, Ss, Ds, Turb, Llws, Va, RdoactCld, Conv, Icing, Ifr, Mtnobsc, Ash]

  lemma AllHazardsListed(h: Hazard)
    ensures h in AllHazards
  {
    match h
    case Ice => case Mtw => case Tc => case Ts => case Tsgr => case Ss => case Ds =>
    case Turb => case Llws => case Va => case RdoactCld => case Conv => case Icing =>
    case Ifr => case Mtnobsc => case Ash =>
  }

  function HazardFromRaw(s: string): (r: Option<Hazard>)
    ensures r.Some? ==> HazardRaw(r.value) == s
    ensures r.None? ==> forall h :: HazardRaw(h) != s
  {
    var r := FindNamed(s, AllHazards, HazardRaw);
    if r.None? then
      assert forall h :: HazardRaw(h) != s by {
        forall h ensures HazardRaw(h) != s { AllHazardsListed(h); }
      }
      r
    else r
  }

  /** The international hazards have raw values distinct from every other hazard's. */
  lemma {:induction false} HazardRawDistinctInternational(h: Hazard, k: Hazard)
    requires h != k && h in InternationalHazards
    ensures HazardRaw(h) != HazardRaw(k)
  {
    match h
    case Ice => case Mtw => case Tc => case Ts => case Tsgr => case Ss => case Ds =>
    case Turb => case Llws => case Va => case RdoactCld =>
  }

  /** The US hazards have raw values distinct from every other hazard's. */
  lemma {:induction false} HazardRawDistinctUs(h: Hazard, k: Hazard)
    requires h != k && h !in InternationalHazards
    ensures HazardRaw(h) != HazardRaw(k)
  {
    match h
    case Conv => case Icing => case Ifr => case Mtnobsc => case Ash =>
  }

  lemma HazardFromRawRaw(h: Hazard)
    ensures HazardFromRaw(HazardRaw(h)) == Some(h)
  {
    var k := HazardFromRaw(HazardRaw(h)).value;
    if k != h {
      if k in InternationalHazards {
        HazardRawDistinctInternational(k, h);
      } else {
        HazardRawDistinctUs(k, h);
      }
    }
  }

  /** The GeoJSON geometry type of a feature. */
  datatype SigmetGeometryType = GeoLineString | GeoPoint | GeoPolygon

  function GeometryTypeRaw(t: SigmetGeometryType): string {
    match t
    case GeoLineString => "LineString"
    case GeoPoint => "Point"
    case GeoPolygon => "Polygon"
  }

  function GeometryTypeFromRaw(s: string): (r: Option<SigmetGeometryType>)
    ensures r.Some? ==> GeometryTypeRaw(r.value) == s
    ensures r.None? ==> forall t :: GeometryTypeRaw(t) != s
  {
    if s == "LineString" then Some(GeoLineString)
    else if s == "Point" then Some(GeoPoint)
    else if s == "Polygon" then Some(GeoPolygon)
    else None
  }

  lemma GeometryTypeFromRawRaw(t: SigmetGeometryType)
    ensures GeometryTypeFromRaw(GeometryTypeRaw(t)) == Some(t)
  {
    match t
    case GeoLineString => case GeoPoint => case GeoPolygon =>
  }

  /** The properties of a feature; international and US reports fill different ones. */
  datatype SigmetProperties = SigmetProperties(
    icaoID: Option<string>,
    firID: Option<string>,
    firName: Option<string>,
    seriesID: Option<string>,
    hazard: Option<Hazard>,
    validTimeFrom: Option<Date>,
    validTimeTo: Option<Date>,
    qualifier: Option<string>,
    geometryType: Option<GeoType>,
    coords: Option<string>,
    base: Option<int>,
    top: Option<int>,
    dir: Option<string>,
    speed: Option<string>,
    change: Option<Change>,
    rawSigmet: Option<string>,
    airSigmetType: Option<string>,
    alphaChar: Option<string>,
    severity: Option<string>,
    altitudeLow1: Option<int>,
    altitudeLow2: Option<int>,
    altitudeHi1: Option<int>,
    altitudeHi2: Option<int>,
    rawAirSigmet: Option<string>)

  /** One coordinate entry of a geometry; its JSON shape decides the case. */
  datatype Coordinate =
    | PointCoord(latlong: Double)
    | LineCoord(latlongPair: seq<Double>)
    | PolygonCoord(latlongPairs: seq<seq<Double>>)

  datatype SigmetGeometry = SigmetGeometry(kind: SigmetGeometryType, coordinates: seq<Coordinate>)

  datatype Sigmet = Sigmet(properties: SigmetProperties, id: Option<string>, geometry: Option<SigmetGeometry>)

  /** The report text: the international text if there is one, else the US text, else empty. */
  function SigmetText(s: Sigmet): (r: string)
    ensures s.properties.rawSigmet.Some? ==> r == s.properties.rawSigmet.value
    ensures s.properties.rawSigmet.None? && s.properties.rawAirSigmet.Some? ==> r == s.properties.rawAirSigmet.value
    ensures s.properties.rawSigmet.None? && s.properties.rawAirSigmet.None? ==> r == ""
  {
    s.properties.rawSigmet.GetOr(s.properties.rawAirSigmet.GetOr(""))
  }

  /** A report is international exactly when it carries an international text, even an empty one. */
  function SigmetTypeOf(s: Sigmet): (r: SigmetType)
    ensures r == International <==> s.properties.rawSigmet.Some?
  {
    if s.properties.rawSigmet.Some? then International else UsOnly
  }

  /** The text of a report is the text of its own family. */
  lemma TextFollowsType(s: Sigmet)
    ensures SigmetTypeOf(s) == International ==> SigmetText(s) == s.properties.rawSigmet.value
    ensures SigmetTypeOf(s) == UsOnly ==> SigmetText(s) == s.properties.rawAirSigmet.GetOr("")
  {
  }

  /** `Int(severity ?? "")`: the severity as an integer, when it is present and integral. */
  function SeverityValue(p: SigmetProperties): (r: Option<int>)
    ensures r.Some? <==> p.severity.Some? && IsIntLiteral(p.severity.value)
  {
    ParseInt(p.severity.GetOr(""))
  }

  /** A severity written as an integer reads back as that integer. */
  lemma SeverityOfInteger(p: SigmetProperties, n: int)
    requires p.severity == Some(FormatInt(n))
    ensures SeverityValue(p) == Some(n)
  {
    ParseFormatInt(n);
  }

  /** The stored properties, in the order the key enumeration lists them. */
  datatype PropertyKey =
    | IcaoIDKey | FirIDKey | FirNameKey | SeriesIDKey | HazardKey | ValidTimeFromKey
    | ValidTimeToKey | QualifierKey | GeometryTypeKey | CoordsKey | RawSigmetKey | TopKey
    | DirKey | SpeedKey | ChangeKey | BaseKey | AirSigmetTypeKey | AlphaCharKey
    | SeverityKey | AltitudeLow1Key | AltitudeLow2Key | AltitudeHi1Key | AltitudeHi2Key
    | RawAirSigmetKey

  /** The name of the stored property a key fills. */
  function PropertyName(k: PropertyKey): string {
    match k
    case IcaoIDKey => "icaoID"
    case FirIDKey => "firID"
    case FirNameKey => "firName"
    case SeriesIDKey => "seriesID"
    case HazardKey => "hazard"
    case ValidTimeFromKey => "validTimeFrom"
    case ValidTimeToKey => "validTimeTo"
    case QualifierKey => "qualifier"
    case GeometryTypeKey => "geometryType"
    case CoordsKey => "coords"
    case RawSigmetKey => "rawSigmet"
    case TopKey => "top"
    case DirKey => "dir"
    case SpeedKey => "speed"
    case ChangeKey => "change"
    case BaseKey => "base"
    case AirSigmetTypeKey => "airSigmetType"
    case AlphaCharKey => "alphaChar"
    case SeverityKey => "severity"
    case AltitudeLow1Key => "altitudeLow1"
    case AltitudeLow2Key => "altitudeLow2"
    case AltitudeHi1Key => "altitudeHi1"
    case AltitudeHi2Key => "altitudeHi2"
    case RawAirSigmetKey => "rawAirSigmet"
  }

  /** The JSON member name a key is read from and written to. */
  function WireKey(k: PropertyKey): string {
    match k
    case IcaoIDKey => "icaoId"
    case FirIDKey => "firId"
    case SeriesIDKey => "seriesId"
    case GeometryTypeKey => "geom"
    case ChangeKey => "chng"
    case _ => PropertyName(k)
  }

  /** Exactly five properties travel under a name other than their own. */
  lemma RenamedKeys(k: PropertyKey)
    ensures WireKey(k) != PropertyName(k) <==> k in {IcaoIDKey, FirIDKey, SeriesIDKey, GeometryTypeKey, ChangeKey}
  {
  }

  const AllPropertyKeys: seq<PropertyKey> := [
    IcaoIDKey, FirIDKey, FirNameKey, SeriesIDKey, HazardKey, ValidTimeFromKey,
    ValidTimeToKey, QualifierKey, GeometryTypeKey, CoordsKey, RawSigmetKey, TopKey,
    DirKey, SpeedKey, ChangeKey, BaseKey, AirSigmetTypeKey, AlphaCharKey,
    SeverityKey, AltitudeLow1Key, AltitudeLow2Key, AltitudeHi1Key, AltitudeHi2Key,
    RawAirSigmetKey]

  lemma AllPropertyKeysListed(k: PropertyKey)
    ensures k in AllPropertyKeys
  {
    match k
    case IcaoIDKey => case FirIDKey => case FirNameKey => case SeriesIDKey =>
    case HazardKey => case ValidTimeFromKey => case ValidTimeToKey => case QualifierKey =>
    case GeometryTypeKey => case CoordsKey => case RawSigmetKey => case TopKey =>
    case DirKey => case SpeedKey => case ChangeKey => case BaseKey =>
    case AirSigmetTypeKey => case AlphaCharKey => case SeverityKey => case AltitudeLow1Key =>
    case AltitudeLow2Key => case AltitudeHi1Key => case AltitudeHi2Key => case RawAirSigmetKey =>
  }

  /** The property a JSON member name fills, if any. */
  function PropertyKeyOf(wire: string): (r: Option<PropertyKey>)
    ensures r.Some? ==> WireKey(r.value) == wire
    ensures r.None? ==> forall k :: WireKey(k) != wire
  {
    var r := FindNamed(wire, AllPropertyKeys, WireKey);
    if r.None? then
      assert forall k :: WireKey(k) != wire by {
        forall k ensures WireKey(k) != wire { AllPropertyKeysListed(k); }
      }
      r
    else r
  }

  // Two groups of keys, so that the distinctness of the 24 wire names is
  // proved in three small steps.
  const KeysA: set<PropertyKey> := {
    IcaoIDKey, FirIDKey, FirNameKey, SeriesIDKey, HazardKey, ValidTimeFromKey, ValidTimeToKey, QualifierKey}
  const KeysB: set<PropertyKey> := {
    GeometryTypeKey, CoordsKey, RawSigmetKey, TopKey, DirKey, SpeedKey, ChangeKey, BaseKey}

  /** The first eight keys have wire names distinct from every other key's. */
  lemma {:induction false} WireKeysDistinctA(k: PropertyKey, m: PropertyKey)
    requires k != m && k in KeysA
    ensures WireKey(k) != WireKey(m)
  {
    match k
    case IcaoIDKey => case FirIDKey => case FirNameKey => case SeriesIDKey =>
    case HazardKey => case ValidTimeFromKey => case ValidTimeToKey => case QualifierKey =>
  }

  /** The middle eight keys have wire names distinct from every other key's. */
  lemma {:induction false} WireKeysDistinctB(k: PropertyKey, m: PropertyKey)
    requires k != m && k in KeysB
    ensures WireKey(k) != WireKey(m)
  {
    match k
    case GeometryTypeKey => case CoordsKey => case RawSigmetKey => case TopKey =>
    case DirKey => case SpeedKey => case ChangeKey => case BaseKey =>
  }

  /** The last eight keys have wire names distinct from every other key's. */
  lemma {:induction false} WireKeysDistinctC(k: PropertyKey, m: PropertyKey)
    requires k != m && k !in KeysA + KeysB
    ensures WireKey(k) != WireKey(m)
  {
    match k
    case AirSigmetTypeKey => case AlphaCharKey => case SeverityKey => case AltitudeLow1Key =>
    case AltitudeLow2Key => case AltitudeHi1Key => case AltitudeHi2Key => case RawAirSigmetKey =>
  }

  /** Every property is read back from its own wire name: the key mapping is injective. */
  lemma PropertyKeyOfWireKey(k: PropertyKey)
    ensures PropertyKeyOf(WireKey(k)) == Some(k)
  {
    var m := PropertyKeyOf(WireKey(k)).value;
    if m != k {
      if m in KeysA {
        WireKeysDistinctA(m, k);
      } else if m in KeysB {
        WireKeysDistinctB(m, k);
      } else {
        WireKeysDistinctC(m, k);
      }
    }
  }

  /** What the coordinate decoder throws when no shape fits. */
  datatype DecodingError = TypeMismatch(typeName: string, debugDescription: string)

  /** A JSON value of one of the three coordinate shapes. */
  predicate IsCoordinateShaped(j: Json) {
    j.JNumber? || (j.JArray? && (AsNumberArrays(j.items).Some? || AsNumbers(j.items).Some?))
  }

  /**
   * Tries `[[Double]]`, then `[Double]`, then `Double`, keeping the first
   * that fits; any other value is a type mismatch.
   */
  function DecodeCoordinate(j: Json): (r: Result<Coordinate, DecodingError>)
    ensures r.Failure? <==> !IsCoordinateShaped(j)
    ensures r.Failure? ==> r.error == TypeMismatch("Coordinate", "Wrong type for Coordinate")
    ensures r.Success? && r.value.LineCoord? ==> j.JArray? && AsNumberArrays(j.items).None?
  {
    if j.JArray? && AsNumberArrays(j.items).Some? then Success(PolygonCoord(AsNumberArrays(j.items).value))
    else if j.JArray? && AsNumbers(j.items).Some? then Success(LineCoord(AsNumbers(j.items).value))
    else if j.JNumber? then Success(PointCoord(j.n))
    else Failure(TypeMismatch("Coordinate", "Wrong type for Coordinate"))
  }

  /** Writes the payload of a coordinate as it is. */
  function EncodeCoordinate(c: Coordinate): (j: Json)
    ensures IsCoordinateShaped(j)
  {
    match c
    case PointCoord(x) => JNumber(x)
    case LineCoord(xs) => NumbersRoundTrip(xs); NumberArray(xs)
    case PolygonCoord(xss) => NumberArraysRoundTrip(xss); NumberArrayArray(xss)
  }

  /** Whatever decodes is written back exactly as it was read. */
  lemma {:induction false} EncodeDecodedCoordinate(j: Json)
    requires DecodeCoordinate(j).Success?
    ensures EncodeCoordinate(DecodeCoordinate(j).value) == j
  {
    match DecodeCoordinate(j).value {
      case PointCoord(x) =>
      case LineCoord(xs) =>
        assert NumberArray(xs).items == j.items;
      case PolygonCoord(xss) =>
        var items := NumberArrayArray(xss).items;
        forall i | 0 <= i < |items| ensures items[i] == j.items[i] {
          assert AsNumbers(j.items[i].items) == Some(xss[i]);
          assert NumberArray(xss[i]).items == j.items[i].items;
        }
        assert items == j.items;
    }
  }

  /** Every coordinate but the empty line reads back as itself. */
  lemma {:induction false} CoordinateRoundTrip(c: Coordinate)
    requires c != LineCoord([])
    ensures DecodeCoordinate(EncodeCoordinate(c)) == Success(c)
  {
    match c
    case PointCoord(x) =>
    case LineCoord(xs) =>
      NumbersRoundTrip(xs);
      assert !NumberArray(xs).items[0].JArray?;
    case PolygonCoord(xss) =>
      NumberArraysRoundTrip(xss);
  }

  /** The empty line is written as `[]`, which the `[[Double]]` attempt takes as an empty polygon. */
  lemma EmptyLineReadsAsPolygon()
    ensures EncodeCoordinate(LineCoord([])) == JArray([])
    ensures DecodeCoordinate(EncodeCoordinate(LineCoord([]))) == Success(PolygonCoord([]))
  {
  }
}
