/** The dynamically typed values that flow between the proposer, the agent and
    the tool backends (decoded JSON), with the Python conversions the agent
    applies to them: truthiness, `dict.get`, `or` and `int()`. */
module Json {
  import opened Wrappers

  /** The zone a timestamp is qualified with: the session's configured zone,
      or a fixed offset in minutes (a trailing `Z` is offset 0). */
  datatype Zone = Local | Offset(minutes: int)

  /** A point in time as wall-clock minutes, with its zone when it has one
      (a naive `datetime` has none). */
  datatype Stamp = Stamp(wall: int, zone: Option<Zone>)

  /** A decoded JSON value. `JTime(t)` is a string holding the ISO-8601 text
      of `t` (what `isoformat` writes and `fromisoformat` reads back);
      `JStr(s)` is any other string, which `fromisoformat` rejects. */
  datatype Json =
    | JNull
    | JBool(b: bool)
    | JNum(n: int)
    | JStr(s: string)
    | JTime(t: Stamp)
    | JList(items: seq<Json>)
    | JObj(fields: map<string, Json>)

  /** The exceptions the modelled Python code can raise. */
  datatype PyError =
    | ValueError
    | TypeError
    | AttributeError
    | IndexError
    | ConnectionError
    | HttpError(status: int)

  /** Python truthiness: `None`, `False`, `0`, `""`, `[]` and `{}` are false. */
  predicate Truthy(j: Json) {
    match j
    case JNull => false
    case JBool(b) => b
    case JNum(n) => n != 0
    case JStr(s) => s != ""
    case JTime(_) => true
    case JList(items) => items != []
    case JObj(fields) => fields != map[]
  }

  /** `d.get(k)`: the value under `k`, or `None`. */
  function Get(d: map<string, Json>, k: string): (r: Json)
    ensures k !in d ==> r == JNull
    ensures k in d ==> r == d[k]
  {
    if k in d then d[k] else JNull
  }

  /** Python's `a or b`. */
  function Or(a: Json, b: Json): (r: Json)
    ensures Truthy(a) ==> r == a
    ensures !Truthy(a) ==> r == b
  {
    if Truthy(a) then a else b
  }

  function DigitValue(c: char): int {
    c as int - '0' as int
  }

  predicate IsDigit(c: char) {
    '0' <= c <= '9'
  }

  predicate AllDigits(s: string) {
    forall i :: 0 <= i < |s| ==> IsDigit(s[i])
  }

  /** The value of a string of decimal digits, most significant first. */
  function DigitsValue(s: string): (r: nat)
    requires AllDigits(s)
  {
    if s == [] then 0 else DigitsValue(s[..|s| - 1]) * 10 + DigitValue(s[|s| - 1])
  }

  /** `int(s)` for a string: an optional sign followed by at least one digit. */
  function ParseInt(s: string): (r: Result<int, PyError>)
    ensures r.Success? <==> (s != [] && AllDigits(s)) || (|s| > 1 && (s[0] == '-' || s[0] == '+') && AllDigits(s[1..]))
    ensures r.Failure? ==> r.error == ValueError
    ensures AllDigits(s) && s != [] ==> r == Success(DigitsValue(s))
    ensures |s| > 1 && s[0] == '-' && AllDigits(s[1..]) ==> r == Success(-(DigitsValue(s[1..]) as int))
    ensures |s| > 1 && s[0] == '+' && AllDigits(s[1..]) ==> r == Success(DigitsValue(s[1..]))
  {
    if s != [] && (s[0] == '-' || s[0] == '+') && |s| > 1 && AllDigits(s[1..]) then
      var magnitude: int := DigitsValue(s[1..]);
      Success(if s[0] == '-' then -magnitude else magnitude)
    else if s != [] && AllDigits(s) then
      Success(DigitsValue(s))
    else
      Failure(ValueError)
  }

  /** Python's `int(v)` on a decoded JSON value. */
  function ToInt(v: Json): (r: Result<int, PyError>)
    ensures v.JNum? ==> r == Success(v.n)
    ensures v.JBool? ==> r == Success(if v.b then 1 else 0)
    ensures v.JStr? ==> r == ParseInt(v.s)
    ensures v.JTime? ==> r == Failure(ValueError)
    ensures (v.JNull? || v.JList? || v.JObj?) ==> r == Failure(TypeError)
  {
    match v
    case JNull => Failure(TypeError)
    case JBool(b) => Success(if b then 1 else 0)
    case JNum(n) => Success(n)
    case JStr(s) => ParseInt(s)
    case JTime(_) => Failure(ValueError)
    case JList(_) => Failure(TypeError)
    case JObj(_) => Failure(TypeError)
  }

  lemma ParseIntExample()
    ensures ParseInt("90") == Success(90)
    ensures ParseInt("-15") == Success(-15)
    ensures ParseInt("1h") == Failure(ValueError)
  {
    assert "90"[..1] == "9" && "9"[..0] == "";
    assert DigitsValue("90") == 90;
    assert "-15"[1..] == "15" && "15"[..1] == "1" && "1"[..0] == "";
    assert DigitsValue("15") == 15;
    assert !IsDigit("1h"[1]);
  }
}
