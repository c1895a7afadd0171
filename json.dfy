/**
 * A JSON document as the value tree a JSON decoder walks. Numbers are kept
 * as the opaque `Double` the decoder would produce for them; the textual
 * syntax of JSON is not modelled.
 */
module JsonValues {
  import opened Primitives

  datatype Json =
    | JNull
    | JBool(b: bool)
    | JNumber(n: Double)
    | JString(s: string)
    | JArray(items: seq<Json>)
    | JObject(members: seq<(string, Json)>)

  /** `[Double]`: an array all of whose items are numbers. */
  function AsNumbers(items: seq<Json>): (r: Option<seq<Double>>)
    ensures r.Some? <==> forall i :: 0 <= i < |items| ==> items[i].JNumber?
    ensures r.Some? ==> |r.value| == |items| && forall i :: 0 <= i < |items| ==> items[i] == JNumber(r.value[i])
  {
    if items == [] then Some([])
    else if !items[0].JNumber? then None
    else
      var rest := AsNumbers(items[1..]);
      if rest.None? then
        assert !items[1..][0].JNumber? || exists i :: 1 <= i < |items| && !items[i].JNumber?;
        None
      else Some([items[0].n] + rest.value)
  }

  /** `[[Double]]`: an array all of whose items are arrays of numbers. */
  function AsNumberArrays(items: seq<Json>): (r: Option<seq<seq<Double>>>)
    ensures r.Some? ==> |r.value| == |items|
    ensures r.Some? ==> forall i :: 0 <= i < |items| ==> items[i].JArray? && AsNumbers(items[i].items) == Some(r.value[i])
    ensures r.None? ==> exists i :: 0 <= i < |items| && (!items[i].JArray? || AsNumbers(items[i].items).None?)
  {
    if items == [] then Some([])
    else if !items[0].JArray? || AsNumbers(items[0].items).None? then None
    else
      var rest := AsNumberArrays(items[1..]);
      if rest.None? then
        var i :| 0 <= i < |items[1..]| && (!items[1..][i].JArray? || AsNumbers(items[1..][i].items).None?);
        assert items[1..][i] == items[i + 1];
        None
      else
        var r := [AsNumbers(items[0].items).value] + rest.value;
        assert forall i :: 1 <= i < |items| ==> items[i] == items[1..][i - 1] && r[i] == rest.value[i - 1];
        Some(r)
  }

  /** The encoding of `[Double]`. */
  function NumberArray(xs: seq<Double>): (j: Json)
    ensures j.JArray? && |j.items| == |xs|
    ensures forall i :: 0 <= i < |xs| ==> j.items[i] == JNumber(xs[i])
  {
    JArray(seq(|xs|, i requires 0 <= i < |xs| => JNumber(xs[i])))
  }

  /** The encoding of `[[Double]]`. */
  function NumberArrayArray(xss: seq<seq<Double>>): (j: Json)
    ensures j.JArray? && |j.items| == |xss|
    ensures forall i :: 0 <= i < |xss| ==> j.items[i] == NumberArray(xss[i])
  {
    JArray(seq(|xss|, i requires 0 <= i < |xss| => NumberArray(xss[i])))
  }

  /** Decoding `[Double]` reads back what was encoded. */
  lemma NumbersRoundTrip(xs: seq<Double>)
    ensures AsNumbers(NumberArray(xs).items) == Some(xs)
  {
    var r := AsNumbers(NumberArray(xs).items);
    assert r.Some?;
    assert r.value == xs;
  }

  /** Decoding `[[Double]]` reads back what was encoded. */
  lemma NumberArraysRoundTrip(xss: seq<seq<Double>>)
    ensures AsNumberArrays(NumberArrayArray(xss).items) == Some(xss)
  {
    var items := NumberArrayArray(xss).items;
    forall i | 0 <= i < |items| ensures items[i].JArray? && AsNumbers(items[i].items).Some? {
      NumbersRoundTrip(xss[i]);
    }
    var r := AsNumberArrays(items);
    assert r.Some?;
    forall i | 0 <= i < |xss| ensures r.value[i] == xss[i] {
      assert items[i] == NumberArray(xss[i]);
      NumbersRoundTrip(xss[i]);
    }
    assert r.value == xss;
  }
}
