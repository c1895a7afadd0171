/**
 * Sky cover codes and the rule, shared by all three XML decoders, that turns a
 * `sky_condition` element's attributes into a reported cloud layer.
 * (The source declares the same eight-case enum three times, in
 * Models/TAF.swift, Models/Metar.swift and MetarLoader.swift.)
 */
module SkyCover {
  import opened Primitives

  datatype SkyCoverConditions = Skc | Clr | Cavok | Few | Sct | Bkn | Ovc | Ovx

  function Raw(c: SkyCoverConditions): string {
    match c
    case Skc => "SKC"
    case Clr => "CLR"
    case Cavok => "CAVOK"
    case Few => "FEW"
    case Sct => "SCT"
    case Bkn => "BKN"
    case Ovc => "OVC"
    case Ovx => "OVX"
  }

  /** `SkyCoverConditions(rawValue:)`: the case whose raw value is `s`, if any. */
  function FromRaw(s: string): (r: Option<SkyCoverConditions>)
    ensures r.Some? ==> Raw(r.value) == s
  {
    match s
    case "SKC" => Some(Skc)
    case "CLR" => Some(Clr)
    case "CAVOK" => Some(Cavok)
    case "FEW" => Some(Few)
    case "SCT" => Some(Sct)
    case "BKN" => Some(Bkn)
    case "OVC" => Some(Ovc)
    case "OVX" => Some(Ovx)
    case _ => None
  }

  /** Every case is found again from its raw value, so the eight raw values are distinct. */
  lemma FromRawRaw(c: SkyCoverConditions)
    ensures FromRaw(Raw(c)) == Some(c)
    ensures forall d :: Raw(d) == Raw(c) ==> d == c
  {
    match c
    case Skc => case Clr => case Cavok => case Few =>
    case Sct => case Bkn => case Ovc => case Ovx =>
  }

  /** Raw values are upper-case words, so none of them reads as an Int. */
  lemma RawIsNotInt(c: SkyCoverConditions)
    ensures ParseInt(Raw(c)).None?
  {
    LetterIsNotInt(Raw(c));
  }

  /**
   * The layer a `sky_condition` element reports: "CLR" is a clear sky at
   * base 0 whatever `cloud_base_ft_agl` says; any other cover needs an Int
   * base and falls back to `skc` when it is not a known code; a missing
   * `sky_cover` reports nothing.
   */
  function ReportedLayer(attrs: map<string, string>): (r: Option<(SkyCoverConditions, int)>)
    ensures "sky_cover" !in attrs ==> r.None?
    ensures "sky_cover" in attrs && attrs["sky_cover"] == "CLR" ==> r == Some((Clr, 0))
    ensures "sky_cover" in attrs && attrs["sky_cover"] != "CLR" ==>
      (r.Some? <==> "cloud_base_ft_agl" in attrs && ParseInt(attrs["cloud_base_ft_agl"]).Some?)
    ensures r.Some? && attrs["sky_cover"] != "CLR" ==>
      r.value.1 == ParseInt(attrs["cloud_base_ft_agl"]).value &&
      r.value.0 == FromRaw(attrs["sky_cover"]).GetOr(Skc)
    ensures r.Some? && r.value.0 == Clr ==> r.value.1 == 0
  {
    if "sky_cover" !in attrs then None
    else
      var skyCover := attrs["sky_cover"];
      if skyCover == "CLR" then Some((Clr, 0))
      else if "cloud_base_ft_agl" in attrs && ParseInt(attrs["cloud_base_ft_agl"]).Some? then
        Some((FromRaw(skyCover).GetOr(Skc), ParseInt(attrs["cloud_base_ft_agl"]).value))
      else None
  }
}
