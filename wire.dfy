/**
 * Values as they arrive from the server (decoded JSON, plus `undefined` for a
 * missing property) and the JavaScript coercions the normalisers apply to them:
 * truthiness, `??`, `||`, `String(x)` and `Number(x)`.
 */
module Wire {
  import opened Text

  datatype Json =
    | JUndefined
    | JNull
    | JBool(b: bool)
    | JNum(n: int)
    | JStr(s: string)
    | JArr(items: seq<Json>)
    | JObj(fields: map<string, Json>)

  /** `Boolean(j)`: `undefined`, `null`, `false`, `0` and `''` are falsy. */
  predicate Truthy(j: Json)
  {
    match j
    case JUndefined => false
    case JNull => false
    case JBool(b) => b
    case JNum(n) => n != 0
    case JStr(s) => s != ""
    case JArr(_) => true
    case JObj(_) => true
  }

  predicate IsNullish(j: Json)
  {
    j.JUndefined? || j.JNull?
  }

  /** `key in j` for an object; other values have no own keys. */
  predicate Has(j: Json, key: string)
  {
    j.JObj? && key in j.fields
  }

  /** `j?.[key]`: a missing key, or a value that is not an object, reads as `undefined`. */
  function Get(j: Json, key: string): (r: Json)
    ensures !Has(j, key) ==> r == JUndefined
  {
    if Has(j, key) then j.fields[key] else JUndefined
  }

  /** `a ?? b`. */
  function Coalesce(a: Json, b: Json): (r: Json)
    ensures IsNullish(a) ==> r == b
    ensures !IsNullish(a) ==> r == a
  {
    if IsNullish(a) then b else a
  }

  /** `a || b`. */
  function Or(a: Json, b: Json): (r: Json)
    ensures Truthy(a) ==> r == a
    ensures !Truthy(a) ==> r == b
  {
    if Truthy(a) then a else b
  }

  /** `String(j)`; an array joins its elements with commas, `null` and `undefined` elements as `''`. */
  function ToStr(j: Json): string
    decreases j, 1
  {
    match j
    case JUndefined => "undefined"
    case JNull => "null"
    case JBool(b) => if b then "true" else "false"
    case JNum(n) => IntToString(n)
    case JStr(s) => s
    case JArr(items) => ItemsToStr(items)
    case JObj(_) => "[object Object]"
  }

  function ItemsToStr(items: seq<Json>): string
    decreases items, 0
  {
    if |items| == 0 then ""
    else
      var first := if IsNullish(items[0]) then "" else ToStr(items[0]);
      if |items| == 1 then first else first + "," + ItemsToStr(items[1..])
  }

  /** The result of `Number(j)`: an integer or `NaN`. */
  datatype Number = NaN | Int(i: int)

  /**
   * `Number(s)` for a string over the integers: blank is 0, a run of decimal
   * digits with an optional `-` or `+` sign (surrounded by whitespace) is its
   * value, anything else is `NaN`.
   */
  function StringToNumber(s: string): (n: Number)
    ensures var t := Trim(s);
      && (|t| == 0 ==> n == Int(0))
      && (|t| > 0 && IsDigits(t) ==> n == Int(DigitsValue(t)))
      && (|t| > 1 && t[0] == '-' && IsDigits(t[1..]) ==> n == Int(-(DigitsValue(t[1..]) as int)))
      && (|t| > 1 && t[0] == '+' && IsDigits(t[1..]) ==> n == Int(DigitsValue(t[1..])))
      && (n.NaN? ==> |t| > 0 && !IsDigits(t))
  {
    TrimmedToNumber(Trim(s))
  }

  /** `Number` of a text with no whitespace around it. */
  function TrimmedToNumber(t: string): (n: Number)
    ensures |t| == 0 ==> n == Int(0)
    ensures |t| > 0 && IsDigits(t) ==> n == Int(DigitsValue(t))
    ensures |t| > 1 && t[0] == '-' && IsDigits(t[1..]) ==> n == Int(-(DigitsValue(t[1..]) as int))
    ensures |t| > 1 && t[0] == '+' && IsDigits(t[1..]) ==> n == Int(DigitsValue(t[1..]))
    ensures n.NaN? ==> |t| > 0 && !IsDigits(t)
  {
    if |t| == 0 then Int(0)
    else if IsDigits(t) then Int(DigitsValue(t))
    else if |t| > 1 && (t[0] == '-' || t[0] == '+') && IsDigits(t[1..]) then
      Int(if t[0] == '-' then -(DigitsValue(t[1..]) as int) else DigitsValue(t[1..]))
    else NaN
  }

  /** An integer written as text reads back as the same number: `Number(String(n)) == n`. */
  lemma NumberTextRoundTrip(n: int)
    ensures StringToNumber(IntToString(n)) == Int(n)
  {
    if n < 0 {
      var m: nat := -n;
      assert IntToString(n) == "-" + NatToString(m);
      NegativeText(m);
    } else {
      assert IntToString(n) == NatToString(n);
      NonNegativeText(n);
    }
  }

  lemma NonNegativeText(m: nat)
    ensures StringToNumber(NatToString(m)) == Int(m)
  {
    var t := NatToString(m);
    TrimOfTrimmed(t);
    DigitsValueOfNatToString(m);
  }

  lemma NegativeText(m: nat)
    requires m > 0
    ensures StringToNumber("-" + NatToString(m)) == Int(-(m as int))
  {
    var d := NatToString(m);
    var t := "-" + d;
    assert t[1..] == d;
    assert !IsSpace(t[0]) && !IsSpace(t[|t| - 1]);
    TrimOfTrimmed(t);
    DigitsValueOfNatToString(m);
    assert !IsDigits(t);
  }

  /** `Number(j)`; arrays and objects go through their string form, as JavaScript does. */
  function ToNumber(j: Json): Number
  {
    match j
    case JUndefined => NaN
    case JNull => Int(0)
    case JBool(b) => if b then Int(1) else Int(0)
    case JNum(n) => Int(n)
    case JStr(s) => StringToNumber(s)
    case _ => StringToNumber(ToStr(j))
  }
}
