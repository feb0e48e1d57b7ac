/**
 * Decoded JSON payloads and the few pieces of Python's dynamic semantics
 * the bot applies to them: subscripting a dict, `dict.get`, `in`, truthiness,
 * hashing a value to use it as a dict key, `int(...)` and
 * `datetime.fromtimestamp(...)`. A Python exception is an `Err` result.
 */
module Values {
  import opened Text

  datatype Option<T> = None | Some(value: T)

  /**
   * The Python exceptions the core can raise; `RenderError` stands for
   * whatever the chat framework's template renderer raises.
   */
  datatype Exc = KeyError(key: string) | TypeError | AttributeError | ValueError | RenderError

  datatype Result<T> = Ok(value: T) | Err(error: Exc) {
    predicate IsFailure() { Err? }
    function PropagateFailure<U>(): Result<U> requires Err? { Err(error) }
    function Extract(): T requires Ok? { value }
  }

  /** A value produced by `json.loads` (JSON floats are not modelled). */
  datatype Json =
    | JNull
    | JBool(b: bool)
    | JInt(i: int)
    | JStr(s: string)
    | JArr(items: seq<Json>)
    | JObj(fields: map<string, Json>)

  /**
   * A hashable value as a dict key. `True`/`False` hash and compare equal
   * to `1`/`0`, so they share those keys.
   */
  datatype Key = KNone | KInt(n: int) | KStr(text: string)

  /** The key `v` stands for in a dict; lists and dicts are unhashable. */
  function HashKey(v: Json): (r: Result<Key>)
    ensures r.Err? <==> v.JArr? || v.JObj?
    ensures r.Err? ==> r.error == TypeError
    ensures v.JStr? ==> r == Ok(KStr(v.s))
  {
    match v
    case JNull => Ok(KNone)
    case JBool(b) => Ok(KInt(if b then 1 else 0))
    case JInt(i) => Ok(KInt(i))
    case JStr(s) => Ok(KStr(s))
    case _ => Err(TypeError)
  }

  /** `bool(v)`. */
  predicate Truthy(v: Json) {
    match v
    case JNull => false
    case JBool(b) => b
    case JInt(i) => i != 0
    case JStr(s) => s != []
    case JArr(items) => items != []
    case JObj(fields) => fields != map[]
  }

  /** `v[k]` for a string key `k`. */
  function Get(v: Json, k: string): (r: Result<Json>)
    ensures r.Ok? <==> v.JObj? && k in v.fields
    ensures r.Ok? ==> r.value == v.fields[k]
    ensures v.JObj? && k !in v.fields ==> r == Err(KeyError(k))
    ensures !v.JObj? ==> r == Err(TypeError)
  {
    match v
    case JObj(fields) => if k in fields then Ok(fields[k]) else Err(KeyError(k))
    case _ => Err(TypeError)
  }

  /** `v.get(k, d)`: only dicts have `get`. */
  function GetOr(v: Json, k: string, d: Json): (r: Result<Json>)
    ensures r.Ok? <==> v.JObj?
    ensures r.Ok? ==> r.value == (if k in v.fields then v.fields[k] else d)
    ensures !v.JObj? ==> r == Err(AttributeError)
  {
    match v
    case JObj(fields) => Ok(if k in fields then fields[k] else d)
    case _ => Err(AttributeError)
  }

  /** `k in v` for a string `k`. */
  function Contains(v: Json, k: string): Result<bool> {
    match v
    case JObj(fields) => Ok(k in fields)
    case JArr(items) => Ok(JStr(k) in items)
    case JStr(s) => Ok(IsInfix(k, s))
    case _ => Err(TypeError)
  }

  // ---------------------------------------------------------------------------
  // int(...) and its inverse str(...)

  predicate IsDigit(c: char) { '0' <= c <= '9' }

  predicate IsDigits(s: string) {
    s != [] && forall i :: 0 <= i < |s| ==> IsDigit(s[i])
  }

  function DigitsValue(s: string): nat
    requires forall i :: 0 <= i < |s| ==> IsDigit(s[i])
  {
    if s == [] then 0 else DigitsValue(s[..|s| - 1]) * 10 + DigitValue(s[|s| - 1])
  }

  function DigitValue(c: char): nat
    requires IsDigit(c)
  {
    c as int - '0' as int
  }

  /** `s.strip()`. */
  function Strip(s: string): string {
    DropTrailingSpaces(DropSpaces(s))
  }

  function DropTrailingSpaces(s: string): string {
    if s != [] && IsSpace(s[|s| - 1]) then DropTrailingSpaces(s[..|s| - 1]) else s
  }

  /**
   * `int(s)` for a string: surrounding whitespace, an optional sign and
   * one or more ASCII digits.
   */
  function ParseInt(s: string): Result<int> {
    var t := Strip(s);
    if t != [] && (t[0] == '+' || t[0] == '-') then
      if IsDigits(t[1..]) then
        var magnitude: int := DigitsValue(t[1..]);
        Ok(if t[0] == '-' then -magnitude else magnitude)
      else Err(ValueError)
    else if IsDigits(t) then Ok(DigitsValue(t))
    else Err(ValueError)
  }

  /** `int(v)`. */
  function PyInt(v: Json): Result<int> {
    match v
    case JInt(i) => Ok(i)
    case JBool(b) => Ok(if b then 1 else 0)
    case JStr(s) => ParseInt(s)
    case _ => Err(TypeError)
  }

  /** `datetime.fromtimestamp(v)`, kept as epoch seconds. */
  function Timestamp(v: Json): Result<int> {
    match v
    case JInt(i) => Ok(i)
    case JBool(b) => Ok(if b then 1 else 0)
    case _ => Err(TypeError)
  }

  function DigitChar(d: nat): char
    requires d < 10
  {
    ('0' as int + d) as char
  }

  /** The decimal digits of `n`. */
  function Digits(n: nat): string
    decreases n
  {
    if n < 10 then [DigitChar(n)] else Digits(n / 10) + [DigitChar(n % 10)]
  }

  /** `str(n)` for an int. */
  function Decimal(n: int): string {
    if n < 0 then "-" + Digits(-n) else Digits(n)
  }

  lemma {:induction false} DigitsValueOfDigits(n: nat)
    ensures IsDigits(Digits(n)) && DigitsValue(Digits(n)) == n
    decreases n
  {
    if n >= 10 {
      DigitsValueOfDigits(n / 10);
      var s := Digits(n);
      assert s[..|s| - 1] == Digits(n / 10);
    }
  }

  lemma StripUnpadded(s: string)
    requires s != [] && !IsSpace(s[0]) && !IsSpace(s[|s| - 1])
    ensures Strip(s) == s
  {
  }

  /** `int(str(n)) == n`: the decimal text of an int parses back to it. */
  lemma {:induction false} ParseIntOfDecimal(n: int)
    ensures PyInt(JStr(Decimal(n))) == Ok(n)
  {
    var m: nat := if n < 0 then -n else n;
    DigitsValueOfDigits(m);
    var t := Decimal(n);
    assert t[|t| - 1] == Digits(m)[|Digits(m)| - 1];
    StripUnpadded(t);
    if n < 0 {
      assert t[1..] == Digits(m);
    } else {
      assert IsDigit(t[0]);
    }
  }

  /** `int("-0") == 0`. */
  lemma MinusZero()
    ensures PyInt(JStr("-0")) == Ok(0)
  {
    StripUnpadded("-0");
    assert "-0"[1..] == "0";
    assert IsDigits("0");
  }
}
