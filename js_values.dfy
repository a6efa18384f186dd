/** The few pieces of JavaScript value semantics the dashboard's code relies
    on: truthiness of an optional string, the text a template literal produces
    for a possibly-null value, decimal rendering of a number by `String(n)`, and
    property access on a decoded JSON body. */
module JsValues {
  import opened Wrappers

  /** A JavaScript value that is a string or `null`; as a condition it is true
      exactly when it is a non-empty string (`null` and `""` are both falsy). */
  predicate Truthy(v: Option<string>) {
    v.Some? && v.value != ""
  }

  /** The text `${v}` yields in a template literal: `null` becomes "null". */
  function TemplateText(v: Option<string>): string {
    match v
    case Some(t) => t
    case None => "null"
  }

  /** The rendering cannot tell an empty store from a stored literal "null":
      both give the same text, while any other stored token is kept apart
      from the empty store. */
  lemma TemplateTextNullCollision(t: string)
    ensures TemplateText(Some("null")) == TemplateText(None)
    ensures t != "null" ==> TemplateText(Some(t)) != TemplateText(None)
  {
  }

  // ---------------------------------------------------------------------------
  // Decimal rendering of integers, as `String(n)` does for an integral number
  // of magnitude below 10^21 that is exactly representable as a double; larger
  // magnitudes, which JavaScript renders in exponent form, are not modelled.

  predicate IsDigit(c: char) {
    '0' <= c <= '9'
  }

  function DigitChar(d: nat): (c: char)
    requires d < 10
    ensures IsDigit(c)
    ensures (c as int) - ('0' as int) == d
  {
    (('0' as int) + d) as char
  }

  /** Decimal digits of `n`, most significant first, no leading zero. */
  function NatToDecimal(n: nat): (s: string)
    ensures |s| >= 1
    ensures forall i :: 0 <= i < |s| ==> IsDigit(s[i])
    ensures |s| > 1 ==> s[0] != '0'
  {
    if n < 10 then [DigitChar(n)] else NatToDecimal(n / 10) + [DigitChar(n % 10)]
  }

  /** `String(n)` for an integral number `n` with |n| < 10^21 that a double
      holds exactly; the model renders every integer in plain decimal. */
  function NumberToString(n: int): (s: string)
    ensures |s| >= 1
    ensures n >= 0 <==> IsDigit(s[0])
    ensures n < 0 <==> s[0] == '-'
  {
    if n < 0 then "-" + NatToDecimal(-n) else NatToDecimal(n)
  }

  /** Reads a non-empty string of decimal digits back as a natural number; the
      reference against which the rendering above is checked. */
  function ParseDecimal(s: string): (r: Option<nat>)
    ensures r.Some? ==> |s| >= 1
  {
    if |s| == 0 || !IsDigit(s[|s| - 1]) then None
    else if |s| == 1 then Some((s[0] as int) - ('0' as int))
    else match ParseDecimal(s[..|s| - 1])
      case None => None
      case Some(high) => Some(high * 10 + ((s[|s| - 1] as int) - ('0' as int)))
  }

  /** Reads an optionally minus-signed decimal integer. */
  function ParseInteger(s: string): (r: Option<int>) {
    if |s| > 0 && s[0] == '-' then
      match ParseDecimal(s[1..])
      case None => None
      case Some(m) => var k: int := m; Some(-k)
    else
      match ParseDecimal(s)
      case None => None
      case Some(m) => Some(m)
  }

  lemma {:induction false} NatToDecimalRoundTrip(n: nat)
    ensures ParseDecimal(NatToDecimal(n)) == Some(n)
  {
    if n >= 10 {
      var s := NatToDecimal(n);
      var high := NatToDecimal(n / 10);
      assert s == high + [DigitChar(n % 10)];
      assert s[..|s| - 1] == high;
      NatToDecimalRoundTrip(n / 10);
    }
  }

  /** Rendering an integer and reading it back gives the same integer, so the
      text `String(n)` determines `n`. */
  lemma NumberToStringRoundTrip(n: int)
    ensures ParseInteger(NumberToString(n)) == Some(n)
  {
    var s := NumberToString(n);
    if n < 0 {
      assert s == "-" + NatToDecimal(-n);
      assert s[1..] == NatToDecimal(-n);
      NatToDecimalRoundTrip(-n);
      assert ParseDecimal(s[1..]) == Some(-n);
    } else {
      assert s == NatToDecimal(n);
      assert s[0] != '-';
      NatToDecimalRoundTrip(n);
    }
  }

  /** Distinct integers render to distinct strings. */
  lemma NumberToStringInjective(m: int, n: int)
    requires NumberToString(m) == NumberToString(n)
    ensures m == n
  {
    NumberToStringRoundTrip(m);
    NumberToStringRoundTrip(n);
  }

  // ---------------------------------------------------------------------------
  // Decoded JSON response bodies.

  /** A decoded response body. `Undefined` is what reading an absent property
      yields. */
  datatype Json =
    | Undefined
    | Null
    | Bool(b: bool)
    | Num(n: int)
    | Str(s: string)
    | Arr(items: seq<Json>)
    | Obj(props: map<string, Json>)

  predicate Nullish(v: Json) {
    v.Undefined? || v.Null?
  }

  /** `v.key`: `None` stands for the TypeError JavaScript raises when `v` is
      `null` or `undefined`. On an object only its own members are found; on
      an array, string, number or boolean every key reads as `undefined`, own
      members such as `length` and indices included. The dashboard reads only
      `fields` and `preferences`, which none of those values carry. */
  function GetProperty(v: Json, key: string): Option<Json> {
    match v
    case Undefined => None
    case Null => None
    case Obj(props) => if key in props then Some(props[key]) else Some(Undefined)
    case _ => Some(Undefined)
  }
}
