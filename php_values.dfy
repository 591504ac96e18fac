/**
 * The PHP values the request handlers see and produce: a decoded request
 * body (form fields or `json_decode($raw, true)`), PHP's `empty()` test on
 * them, the handlers' choice between the parsed body and the raw JSON body,
 * and the coercion PHP applies when such a value is passed to an `int`
 * parameter (as `findById(int $id)` receives the ids of a payment body).
 */
module PhpValues {
  import opened Optional

  /** A PHP value as JSON decodes it (objects become PHP arrays) or as `json_encode` writes it. */
  datatype Value =
    | Null
    | Bool(b: bool)
    | Int(i: int)
    | Real(r: real)
    | Str(s: string)
    | List(items: seq<Value>)
    | Obj(fields: seq<(string, Value)>)

  /** A decoded request body: a PHP array with string keys. */
  type Body = map<string, Value>

  /** PHP's `empty($v)` for a value that is set: null, false, 0, 0.0, "", "0" and the empty array. */
  predicate IsEmpty(v: Value) {
    match v
    case Null => true
    case Bool(b) => !b
    case Int(i) => i == 0
    case Real(r) => r == 0.0
    case Str(s) => s == "" || s == "0"
    case List(items) => items == []
    case Obj(fields) => fields == []
  }

  /** `empty($data[$key])`: a missing key is empty too. */
  predicate IsEmptyField(data: Body, key: string) {
    key !in data || IsEmpty(data[key])
  }

  /** `empty($body)` for a body that may be null (no parsed body, or JSON that did not decode). */
  predicate IsEmptyBody(body: Option<Body>) {
    body.None? || body.value == map[]
  }

  /**
   * The create handlers' input: the parsed body when it is not empty,
   * otherwise the JSON-decoded raw body when that is not empty; None means
   * the handler answers 400 "Invalid data".
   */
  function SelectData(parsed: Option<Body>, json: Option<Body>): (data: Option<Body>)
    ensures data.Some? <==> !IsEmptyBody(parsed) || !IsEmptyBody(json)
    ensures data.Some? ==> data.value != map[]
    ensures !IsEmptyBody(parsed) ==> data == parsed
    ensures IsEmptyBody(parsed) && !IsEmptyBody(json) ==> data == json
  {
    if !IsEmptyBody(parsed) then parsed
    else if !IsEmptyBody(json) then json
    else None
  }

  lemma EmptyValuesOfPhp()
    ensures IsEmpty(Null) && IsEmpty(Bool(false)) && IsEmpty(Int(0)) && IsEmpty(Real(0.0))
    ensures IsEmpty(Str("")) && IsEmpty(Str("0")) && IsEmpty(List([])) && IsEmpty(Obj([]))
    ensures !IsEmpty(Bool(true)) && !IsEmpty(Int(-1)) && !IsEmpty(Str("00"))
    ensures !IsEmpty(Str(" ")) && !IsEmpty(Str("false")) && !IsEmpty(Real(0.01))
  {
  }

  /** An ASCII letter, lower or upper case. */
  predicate IsLetter(c: char) {
    'a' <= c <= 'z' || 'A' <= c <= 'Z'
  }

  predicate IsDigit(c: char) {
    '0' <= c <= '9'
  }

  predicate AllDigits(s: string) {
    forall i :: 0 <= i < |s| ==> IsDigit(s[i])
  }

  /** The number a string of decimal digits denotes (most significant digit first). */
  function DigitsValue(s: string): nat
    requires AllDigits(s)
  {
    if s == [] then 0 else DigitsValue(s[..|s| - 1]) * 10 + (s[|s| - 1] as int - '0' as int)
  }

  /** The shortest decimal digits of n. */
  function DecimalDigits(n: nat): (s: string)
    ensures AllDigits(s) && s != []
  {
    if n < 10 then [('0' as int + n) as char]
    else DecimalDigits(n / 10) + [('0' as int + n % 10) as char]
  }

  /** The text of an integer as a client writes it: an optional minus sign and its digits. */
  function IntegerText(n: int): string {
    if n < 0 then "-" + DecimalDigits(-n) else DecimalDigits(n)
  }

  /** An integer-numeric string (an optional sign and at least one digit) read as an int; None otherwise. */
  function ParseInteger(s: string): (r: Option<int>)
    ensures r.Some? ==> |s| > 0
  {
    if |s| > 1 && (s[0] == '-' || s[0] == '+') && AllDigits(s[1..]) then
      Some(if s[0] == '-' then -(DigitsValue(s[1..]) as int) else DigitsValue(s[1..]) as int)
    else if |s| > 0 && AllDigits(s) then
      Some(DigitsValue(s) as int)
    else
      None
  }

  /** x truncated toward zero, as PHP converts a float to an int. */
  function Truncate(x: real): (n: int)
    ensures 0.0 <= x ==> n as real <= x < n as real + 1.0
    ensures x < 0.0 ==> n as real - 1.0 < x <= n as real
  {
    if 0.0 <= x then x.Floor else -((-x).Floor)
  }

  /**
   * The int a value becomes when passed to an `int` parameter outside strict
   * mode; None where PHP throws a TypeError (null, arrays, non-numeric
   * strings). Floats are truncated, booleans become 0 or 1.
   */
  function ToIntArgument(v: Value): (r: Option<int>)
    ensures v.Int? ==> r == Some(v.i)
    ensures v.Null? || v.List? || v.Obj? ==> r.None?
    ensures v.Bool? ==> r == Some(if v.b then 1 else 0)
  {
    match v
    case Int(i) => Some(i)
    case Bool(b) => Some(if b then 1 else 0)
    case Real(x) => Some(Truncate(x))
    case Str(s) => ParseInteger(s)
    case _ => None
  }

  lemma {:induction false} DigitsRoundTrip(n: nat)
    ensures DigitsValue(DecimalDigits(n)) == n
  {
    var s := DecimalDigits(n);
    if n >= 10 {
      var d := ('0' as int + n % 10) as char;
      assert s == DecimalDigits(n / 10) + [d];
      assert s[..|s| - 1] == DecimalDigits(n / 10);
      DigitsRoundTrip(n / 10);
    }
  }

  /** An id written as text by a form client reaches `findById` unchanged. */
  lemma IntegerTextRoundTrip(n: int)
    ensures ParseInteger(IntegerText(n)) == Some(n)
    ensures ToIntArgument(Str(IntegerText(n))) == Some(n)
  {
    if n < 0 {
      var t := IntegerText(n);
      assert t[1..] == DecimalDigits(-n);
      DigitsRoundTrip(-n);
    } else {
      var t := DecimalDigits(n);
      if |t| > 1 {
        assert t[0] != '-' && t[0] != '+' by { assert IsDigit(t[0]); }
      }
      DigitsRoundTrip(n);
    }
  }

  /** Text that starts with a letter, such as "card" or "Visa", is not read as an integer and is refused. */
  lemma NonNumericTextRefused(s: string)
    requires |s| > 0 && IsLetter(s[0])
    ensures ToIntArgument(Str(s)).None?
  {
  }

  /** The whitespace PHP skips before a numeric string: space, \t, \n, \r, \v and \f. */
  predicate IsNumericWhitespace(c: char) {
    c == ' ' || c == '\t' || c == '\n' || c == '\r' || c == '\U{0B}' || c == '\U{0C}'
  }

  /** s without its leading whitespace. */
  function SkipWhitespace(s: string): (t: string)
    ensures |t| <= |s|
    ensures |t| > 0 ==> !IsNumericWhitespace(t[0])
  {
    if |s| > 0 && IsNumericWhitespace(s[0]) then SkipWhitespace(s[1..]) else s
  }

  /**
   * PHP's leading-numeric strings: after optional whitespace and an optional
   * sign comes a digit, or a '.' followed by a digit. Whatever follows is
   * dropped (with a warning) when such a string is converted to a number.
   */
  predicate LeadingNumeric(s: string) {
    var t := SkipWhitespace(s);
    var u := if |t| > 0 && (t[0] == '+' || t[0] == '-') then t[1..] else t;
    (|u| > 0 && IsDigit(u[0])) || (|u| > 1 && u[0] == '.' && IsDigit(u[1]))
  }

  /**
   * Whether a value can be assigned to a `float` typed property outside strict
   * mode: ints, floats and bools are converted, a string only when it is
   * leading-numeric; null, arrays and objects raise a TypeError.
   */
  predicate FloatCoercible(v: Value) {
    match v
    case Int(_) => true
    case Real(_) => true
    case Bool(_) => true
    case Str(s) => LeadingNumeric(s)
    case _ => false
  }

  /** Numbers and text such as " 12.5", "-3" or ".5" are accepted; text that starts with a letter and arrays are not. */
  lemma FloatCoercionExamples(n: int, x: real, s: string, items: seq<Value>)
    requires |s| > 0 && IsLetter(s[0])
    ensures FloatCoercible(Int(n)) && FloatCoercible(Real(x))
    ensures FloatCoercible(Str(" 12.5")) && FloatCoercible(Str("-3")) && FloatCoercible(Str(".5"))
    ensures !FloatCoercible(Str(s)) && !FloatCoercible(List(items))
  {
    assert SkipWhitespace(" 12.5") == SkipWhitespace(" 12.5"[1..]) == "12.5";
    assert SkipWhitespace("-3") == "-3";
    assert SkipWhitespace(".5") == ".5";
    assert SkipWhitespace(s) == s;
  }
}
