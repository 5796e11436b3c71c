/**
 * Parsed JSON values as the JavaScript code sees them, with the few
 * JavaScript coercions the modelled code relies on: truthiness of a value
 * read from an object and the `Number(...)` conversion.  A property that is
 * missing (`undefined` in JavaScript) is `None` wherever it can occur.
 */
module JsonValue {
  import opened Wrappers

  datatype Json =
    | JNull
    | JBool(b: bool)
    | JNum(n: real)
    | JStr(s: string)
    | JArr(items: seq<Json>)
    | JObj(fields: map<string, Json>)

  /** The run-time errors the modelled JavaScript can throw. */
  datatype JsError = TypeError | ReferenceError

  /** JavaScript truthiness: `null`, `false`, `0` and `""` are falsy, every array and object is truthy. */
  predicate Truthy(v: Json)
  {
    match v
    case JNull => false
    case JBool(b) => b
    case JNum(n) => n != 0.0
    case JStr(s) => s != ""
    case JArr(_) => true
    case JObj(_) => true
  }

  /** Reading property `k` of a JSON object; anything else has no own properties here. */
  function Member(v: Json, k: string): Option<Json>
  {
    if v.JObj? && k in v.fields then Some(v.fields[k]) else None
  }

  /** Truthiness of a property read, where a missing property is `undefined` (falsy). */
  predicate TruthyMember(v: Json, k: string)
  {
    var m := Member(v, k);
    m.Some? && Truthy(m.value)
  }

  predicate IsDigit(c: char)
  {
    '0' <= c <= '9'
  }

  function DigitValue(c: char): nat
    requires IsDigit(c)
  {
    (c as int) - ('0' as int)
  }

  predicate AllDigits(s: string)
  {
    forall i :: 0 <= i < |s| ==> IsDigit(s[i])
  }

  /** The value of a decimal digit string, most significant digit first. */
  function DigitsValue(s: string): nat
    requires AllDigits(s)
  {
    if s == [] then 0 else DigitsValue(s[..|s| - 1]) * 10 + DigitValue(s[|s| - 1])
  }

  /** The value of the digits after a decimal point. */
  function FractionValue(s: string): real
    requires AllDigits(s)
  {
    if s == [] then 0.0 else (DigitValue(s[0]) as real + FractionValue(s[1..])) / 10.0
  }

  /**
   * `Number(s)` for the string forms the connector receives: the empty string
   * is 0, unsigned decimals `ddd` and `ddd.ddd` are their value, anything else
   * is NaN (`None`).
   */
  function StringToNumber(s: string): (r: Option<real>)
    ensures AllDigits(s) ==> r == Some(DigitsValue(s) as real)
  {
    if s == "" then Some(0.0)
    else if AllDigits(s) then Some(DigitsValue(s) as real)
    else
      var dot := PointIndex(s, 0);
      if dot < 0 then None
      else
        var whole, frac := s[..dot], s[dot + 1..];
        if AllDigits(whole) && AllDigits(frac) && whole + frac != "" then
          Some(DigitsValue(whole) as real + FractionValue(frac))
        else None
  }

  function PointIndex(s: string, from: nat): (r: int)
    requires from <= |s|
    ensures r == -1 || (from <= r < |s| && s[r] == '.')
    decreases |s| - from
  {
    if from == |s| then -1 else if s[from] == '.' then from else PointIndex(s, from + 1)
  }

  /**
   * JavaScript `Number(v)` of a JSON value; `None` stands for NaN.
   * A missing value (`undefined`) is NaN as well, and so is an object.
   */
  function ToNumber(v: Option<Json>): Option<real>
  {
    match v
    case None => None
    case Some(JNull) => Some(0.0)
    case Some(JBool(b)) => Some(if b then 1.0 else 0.0)
    case Some(JNum(n)) => Some(n)
    case Some(JStr(s)) => StringToNumber(s)
    case Some(JArr(items)) => ArrayToNumber(items)
    case Some(JObj(_)) => None
  }

  /**
   * `Number` of an array converts its string form, the elements joined by
   * commas with `null` written as nothing.  The empty array is `""`, so 0;
   * two or more elements put a comma in the string, so NaN; one element is
   * the number of that element's own string form, which for a boolean is
   * `"true"` or `"false"` and for an object `"[object Object]"`, both NaN.
   */
  function ArrayToNumber(items: seq<Json>): (r: Option<real>)
    ensures |items| == 0 ==> r == Some(0.0)
    ensures |items| > 1 ==> r.None?
    decreases items
  {
    if |items| == 0 then Some(0.0)
    else if |items| > 1 then None
    else
      match items[0]
      case JNull => Some(0.0)
      case JBool(_) => None
      case JNum(n) => Some(n)
      case JStr(s) => StringToNumber(s)
      case JArr(inner) => ArrayToNumber(inner)
      case JObj(_) => None
  }

  /**
   * An array of one element that is not a boolean converts like the element
   * itself: `Number([5]) == Number(5)`, `Number(["7"]) == Number("7")`,
   * `Number([null]) == Number(null) == 0`.
   */
  lemma SingletonArrayNumber(x: Json)
    requires !x.JBool?
    ensures ToNumber(Some(JArr([x]))) == ToNumber(Some(x))
  {
  }

  /**
   * The property read `v.k`, where `v` may be `undefined` (`None`): reading
   * from `undefined` or `null` throws a TypeError; an object gives its
   * member, an array or string its `length`, anything else `undefined`.
   */
  function Read(v: Option<Json>, k: string): (r: Result<Option<Json>, JsError>)
    ensures r.Err? <==> v.None? || v.value.JNull?
    ensures r.Ok? && r.value.Some? ==> v.value.JObj? || k == "length"
    ensures v.Some? && v.value.JObj? ==> r == Ok(Member(v.value, k))
  {
    match v
    case None => Err(TypeError)
    case Some(JNull) => Err(TypeError)
    case Some(JObj(f)) => Ok(Member(JObj(f), k))
    case Some(JArr(items)) => Ok(if k == "length" then Some(JNum(|items| as real)) else None)
    case Some(JStr(s)) => Ok(if k == "length" then Some(JNum(|s| as real)) else None)
    case Some(_) => Ok(None)
  }

  /** Truthiness of a value that may be `undefined`. */
  predicate TruthyValue(v: Option<Json>)
  {
    v.Some? && Truthy(v.value)
  }

  /**
   * A key set with no member left is empty: the exit of every loop that
   * takes the keys of an object one at a time.
   */
  lemma NoKeyLeft<K>(s: set<K>)
    requires forall k :: k !in s
    ensures s == {}
  {
    assert forall k :: k in s <==> k in {};
  }
}
