/**
 * Values and conversions shared by every AvWeather decoder.
 *
 * Foundation's text conversions that this model does not interpret
 * (ISO8601DateFormatter, Double(String), Float(String)) are passed in as
 * a `Conversions` value; `Int(String)` is modelled concretely.
 */
module Primitives {

  datatype Option<+T> = None | Some(value: T) {
    function GetOr(default: T): T {
      match this
      case Some(v) => v
      case None => default
    }
  }

  datatype Result<+R, +E> = Success(value: R) | Failure(error: E) {
    predicate IsFailure() { Failure? }

    function PropagateFailure<U>(): Result<U, E>
      requires Failure?
    {
      Failure(error)
    }

    function Extract(): R
      requires Success?
    {
      value
    }
  }

  /** A point in time, in whole seconds since Foundation's reference date (2001-01-01). */
  type Date = int

  /** `Date.distantPast` (midnight, 1 January of year 1). */
  const DistantPast: Date := -63114076800

  /** A 64-bit IEEE-754 value, kept as its bit pattern and never interpreted. */
  datatype Double = Double(bits: int)

  /** A 32-bit IEEE-754 value, kept as its bit pattern and never interpreted. */
  datatype Float = Float(bits: int)

  /** `0.0` as a Double (its bit pattern is all zeros). */
  const ZeroDouble: Double := Double(0)

  /** `Int.max` on a 64-bit platform. */
  const IntMax: int := 0x7FFF_FFFF_FFFF_FFFF

  /** The conversions of Foundation the decoders call, as partial functions. */
  datatype Conversions = Conversions(
    isoDate: string -> Option<Date>,    // ISO8601DateFormatter().date(from:)
    double: string -> Option<Double>,   // Double(String)
    float: string -> Option<Float>)     // Float(String)

  /** A URL query item: a name and an optional value. */
  datatype QueryItem = QueryItem(name: string, value: Option<string>)

  // ---------------------------------------------------------------------
  // Int(String): an optional '+' or '-' followed by one or more ASCII digits.

  predicate IsDigit(c: char) { '0' <= c <= '9' }

  predicate AllDigits(s: string) { forall i :: 0 <= i < |s| ==> IsDigit(s[i]) }

  /** The grammar `Int(String)` accepts. */
  predicate IsIntLiteral(s: string) {
    if |s| > 0 && (s[0] == '+' || s[0] == '-') then |s| > 1 && AllDigits(s[1..])
    else |s| > 0 && AllDigits(s)
  }

  function DigitValue(c: char): nat
    requires IsDigit(c)
  {
    (c as int) - ('0' as int)
  }

  /** The decimal value of a string of digits, most significant digit first. */
  function DigitsValue(s: string): nat
    requires AllDigits(s)
  {
    if s == [] then 0 else DigitsValue(s[..|s| - 1]) * 10 + DigitValue(s[|s| - 1])
  }

  /** `Int(s)`: the value of a signed decimal literal, or None for any other text. */
  function ParseInt(s: string): (r: Option<int>)
    ensures r.Some? <==> IsIntLiteral(s)
    ensures r.Some? ==> s != [] && (IsDigit(s[0]) || s[0] == '+' || s[0] == '-')
  {
    if |s| > 0 && (s[0] == '+' || s[0] == '-') then
      if |s| > 1 && AllDigits(s[1..]) then
        var magnitude: int := DigitsValue(s[1..]);
        Some(if s[0] == '-' then -magnitude else magnitude)
      else None
    else if |s| > 0 && AllDigits(s) then Some(DigitsValue(s))
    else None
  }

  function DigitChar(d: nat): (c: char)
    requires d < 10
    ensures IsDigit(c) && DigitValue(c) == d
  {
    ('0' as int + d) as char
  }

  /** The decimal digits of a natural number, without leading zeros. */
  function FormatNat(n: nat): (s: string)
    ensures |s| > 0 && AllDigits(s)
  {
    if n < 10 then [DigitChar(n)] else FormatNat(n / 10) + [DigitChar(n % 10)]
  }

  /** `String(n)`: the decimal text of an integer, with '-' when negative. */
  function FormatInt(n: int): (s: string)
    ensures |s| > 0
  {
    if n < 0 then "-" + FormatNat(-n) else FormatNat(n)
  }

  lemma {:induction false} DigitsValueOfFormatNat(n: nat)
    ensures DigitsValue(FormatNat(n)) == n
  {
    if n >= 10 {
      var s := FormatNat(n);
      assert s[..|s| - 1] == FormatNat(n / 10);
      DigitsValueOfFormatNat(n / 10);
    }
  }

  /** `Int(String(n)) == n`: formatting and parsing an integer round-trip. */
  lemma ParseFormatInt(n: int)
    ensures ParseInt(FormatInt(n)) == Some(n)
  {
    if n < 0 {
      var s := FormatInt(n);
      assert s[1..] == FormatNat(-n);
      DigitsValueOfFormatNat(-n);
    } else {
      DigitsValueOfFormatNat(n);
    }
  }

  /** Text whose first character is a letter is never an integer literal. */
  lemma LetterIsNotInt(s: string)
    requires |s| > 0 && 'A' <= s[0] <= 'Z'
    ensures ParseInt(s).None?
  {
  }

  /** `strings.joined(separator:)`. */
  function Join(parts: seq<string>, sep: string): (r: string)
    ensures parts == [] ==> r == []
    ensures |parts| == 1 ==> r == parts[0]
    ensures |parts| == 2 ==> r == parts[0] + sep + parts[1]
    ensures |parts| > 1 ==> r == parts[0] + sep + Join(parts[1..], sep)
    ensures |parts| > 0 ==> parts[0] <= r
  {
    if parts == [] then []
    else if |parts| == 1 then parts[0]
    else parts[0] + sep + Join(parts[1..], sep)
  }

  /** The first of `cases` whose name under `nameOf` is `name`, if any: how a raw-value enum is looked up. */
  function FindNamed<T>(name: string, cases: seq<T>, nameOf: T -> string): (r: Option<T>)
    ensures r.Some? ==> nameOf(r.value) == name && r.value in cases
    ensures r.None? ==> forall c :: c in cases ==> nameOf(c) != name
  {
    if cases == [] then None
    else if nameOf(cases[0]) == name then Some(cases[0])
    else FindNamed(name, cases[1..], nameOf)
  }
}
