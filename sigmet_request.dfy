/**
 * The SIGMET request: the service path chosen by family, and the
 * post-processing of the decoded feature list (the leading response entry
 * of the international feed dropped, latest validity first).
 */
module SigmetDecoder {
  import opened Primitives
  import opened SigmetModel
  import opened AvWeatherErrors
  import opened Sorting

  /** The decoded document: its type tag and its features. */
  datatype SigmetResponse = SigmetResponse(kind: string, features: seq<Sigmet>)

  /** A failure of the JSON decoder, as the text it describes itself with. */
  datatype JsonDecodingFailure = JsonDecodingFailure(localizedDescription: string)

  /** The sort key: the start of validity, with a missing one as the distant past. */
  function ValidFrom(s: Sigmet): (k: int)
    ensures s.properties.validTimeFrom.None? ==> k == DistantPast
    ensures s.properties.validTimeFrom.Some? ==> k == s.properties.validTimeFrom.value
  {
    s.properties.validTimeFrom.GetOr(DistantPast)
  }

  /** The international feed opens with an entry about the response itself. */
  predicate HasResponseEntry(features: seq<Sigmet>) {
    |features| > 0 && SigmetTypeOf(features[|features| - 1]) == International
  }

  class SigmetRequest {
    var servicePath: string
    var queryParams: seq<QueryItem>

    constructor (kind: SigmetType := International)
      ensures kind == UsOnly ==> servicePath == "/cgi-bin/json/SigmetJSON.php"
      ensures kind == International ==> servicePath == "/cgi-bin/json/IsigmetJSON.php"
      ensures queryParams == []
    {
      queryParams := [];
      servicePath := "/cgi-bin/json/IsigmetJSON.php";
      if kind == UsOnly {
        servicePath := "/cgi-bin/json/SigmetJSON.php";
      }
    }

    /**
     * Post-processes what the JSON decoder produced: drops the first feature
     * when the last one is international, then orders by validity start,
     * latest first. A decoder failure becomes a parsing error with no list.
     */
    method Decode(decoded: Result<SigmetResponse, JsonDecodingFailure>) returns (r: Result<seq<Sigmet>, AvWeatherError>)
      ensures decoded.Failure? <==> r.Failure?
      ensures decoded.Failure? ==> r.error == Parsing(decoded.error.localizedDescription)
      ensures r.Success? ==> NonIncreasing(r.value, ValidFrom)
      ensures r.Success? ==>
        |r.value| == if HasResponseEntry(decoded.value.features) then |decoded.value.features| - 1 else |decoded.value.features|
      ensures r.Success? && HasResponseEntry(decoded.value.features) ==>
        multiset(r.value) == multiset(decoded.value.features[1..])
      ensures r.Success? && !HasResponseEntry(decoded.value.features) ==>
        multiset(r.value) == multiset(decoded.value.features)
    {
      if decoded.Failure? {
        return Failure(Parsing(decoded.error.localizedDescription));
      }
      var sigmets := decoded.value.features;
      if |sigmets| > 0 && SigmetTypeOf(sigmets[|sigmets| - 1]) == International {
        sigmets := sigmets[1..];
      }
      var sorted := SortDesc(sigmets, ValidFrom);
      assert |sorted| == |multiset(sorted)| == |multiset(sigmets)| == |sigmets|;
      return Success(sorted);
    }
  }
}
