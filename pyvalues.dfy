/** The Python values the client handles: the values it puts in request
    dictionaries, the decoded JSON replies it reads, the exceptions it
    raises, and the two integer/text conversions it performs (`str(n)` and
    `int(x)`). */
module PyValues {
  import opened Wrappers

  /** A value stored in a request dictionary. `Null` is Python's `None`;
      `Builtin` is any other Python object, kept by its `str()` text. */
  datatype Value = Null | Text(s: string) | Number(n: int) | Builtin(text: string)

  /** A decoded JSON document (numbers are integers only). */
  datatype Json =
    | JNull
    | JBool(b: bool)
    | JNum(n: int)
    | JStr(s: string)
    | JArray(items: seq<Json>)
    | JObject(fields: map<string, Json>)

  /** The exceptions that leave the client's methods. */
  datatype Error =
    | ApiError(value: Json)      // APIError(value): the server's `error` field or a message
    | Failed(message: string)    // a bare Exception(message)
    | KeyError(key: string)      // a missing dictionary key
    | TypeError                  // indexing something that is not a dictionary
    | ValueError                 // int() of a text that is not a decimal integer
    | RecursionError             // a self-call that never reaches its base case
    | BinasciiError              // base64 decoding of a malformed secret

  predicate IsDigit(c: char) {
    '0' <= c <= '9'
  }

  predicate AllDigits(s: string) {
    forall i :: 0 <= i < |s| ==> IsDigit(s[i])
  }

  function DigitChar(d: nat): (c: char)
    requires d < 10
    ensures IsDigit(c) && c as int - '0' as int == d
  {
    ('0' as int + d) as char
  }

  /** The decimal digits of a natural number, most significant first. */
  function NatToDecimal(n: nat): (s: string)
    ensures |s| >= 1 && AllDigits(s)
    decreases n
  {
    if n < 10 then [DigitChar(n)] else NatToDecimal(n / 10) + [DigitChar(n % 10)]
  }

  /** The number a non-empty run of decimal digits denotes. */
  function DecimalValue(s: string): nat
    requires AllDigits(s)
  {
    if s == [] then 0 else DecimalValue(s[..|s| - 1]) * 10 + (s[|s| - 1] as int - '0' as int)
  }

  /** Python's `str(n)` for an integer `n`. */
  function IntToString(n: int): string {
    if n < 0 then "-" + NatToDecimal(-n) else NatToDecimal(n)
  }

  /** Python's `int(s)` for a text `s`: an optional sign and at least one
      decimal digit; anything else is refused. */
  function ParseInt(s: string): Option<int> {
    if |s| > 0 && (s[0] == '-' || s[0] == '+') then
      if |s| > 1 && AllDigits(s[1..]) then
        var magnitude: int := DecimalValue(s[1..]);
        Some(if s[0] == '-' then -magnitude else magnitude)
      else None
    else if |s| > 0 && AllDigits(s) then Some(DecimalValue(s))
    else None
  }

  lemma {:induction false} DecimalRoundTrip(n: nat)
    ensures DecimalValue(NatToDecimal(n)) == n
    decreases n
  {
    if n >= 10 {
      DecimalRoundTrip(n / 10);
      var s := NatToDecimal(n / 10) + [DigitChar(n % 10)];
      assert s[..|s| - 1] == NatToDecimal(n / 10);
    }
  }

  lemma ParseDigits(s: string)
    requires |s| >= 1 && AllDigits(s)
    ensures ParseInt(s) == Some(DecimalValue(s))
  {
    assert IsDigit(s[0]);
  }

  lemma ParseNegatedDigits(s: string)
    requires |s| >= 1 && AllDigits(s)
    ensures ParseInt("-" + s) == Some(-(DecimalValue(s) as int))
  {
    var t := "-" + s;
    assert t[0] == '-' && t[1..] == s;
  }

  /** `int(str(n)) == n` for every integer. */
  lemma ParseIntToString(n: int)
    ensures ParseInt(IntToString(n)) == Some(n)
  {
    if n < 0 {
      var digits := NatToDecimal(-n);
      assert IntToString(n) == "-" + digits;
      DecimalRoundTrip(-n);
      ParseNegatedDigits(digits);
    } else {
      var digits := NatToDecimal(n);
      assert IntToString(n) == digits;
      DecimalRoundTrip(n);
      ParseDigits(digits);
    }
  }

  /** Distinct integers have distinct decimal texts. */
  lemma IntToStringInjective(a: int, b: int)
    ensures IntToString(a) == IntToString(b) ==> a == b
  {
    ParseIntToString(a);
    ParseIntToString(b);
  }

  /** Python's `str(v)` for a dictionary value. */
  function ValueStr(v: Value): string {
    match v
    case Null => "None"
    case Text(s) => s
    case Number(n) => IntToString(n)
    case Builtin(text) => text
  }

  /** Python's `j[key]` on a decoded JSON value. */
  function Index(j: Json, key: string): (r: Result<Json, Error>)
    ensures r.Success? <==> j.JObject? && key in j.fields
    ensures r.Success? ==> r.value == j.fields[key]
    ensures j.JObject? && key !in j.fields ==> r == Failure(KeyError(key))
    ensures !j.JObject? ==> r == Failure(TypeError)
  {
    match j
    case JObject(fields) => if key in fields then Success(fields[key]) else Failure(KeyError(key))
    case _ => Failure(TypeError)
  }

  /** Python's `int(j)` on a decoded JSON value. */
  function ToInt(j: Json): Result<int, Error> {
    match j
    case JNum(n) => Success(n)
    case JBool(b) => Success(if b then 1 else 0)
    case JStr(s) => if ParseInt(s).Some? then Success(ParseInt(s).value) else Failure(ValueError)
    case _ => Failure(TypeError)
  }

  /** A cursor that the server sends as decimal text is read back exactly. */
  lemma ToIntOfDecimalText(n: int)
    ensures ToInt(JStr(IntToString(n))) == Success(n)
  {
    ParseIntToString(n);
  }
}
