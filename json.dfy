/**
 * Loosely-typed JSON values as `json.loads` hands them to the archive decoders,
 * and the few Python built-ins the decoders apply to them: truthiness, `int()`,
 * `str()` of an int, `len()` and indexing.
 */
module Json {

  datatype Option<+T> = None | Some(value: T)

  /** Every failed `assert`, `KeyError`, `TypeError` and `ValueError` of the decoders is one `Fail`. */
  datatype Result<+T> = Ok(value: T) | Fail {
    predicate IsFailure() { Fail? }

    function PropagateFailure<U>(): Result<U>
      requires Fail?
    {
      Fail
    }

    function Extract(): T
      requires Ok?
    {
      value
    }
  }

  datatype Json =
    | JNull
    | JBool(b: bool)
    | JInt(i: int)
    | JStr(s: string)
    | JArr(items: seq<Json>)
    | JObj(fields: map<string, Json>)

  /** Python truthiness: what `if x:`, `bool(x)` and `assert x` test. */
  predicate Truthy(j: Json) {
    match j
    case JNull => false
    case JBool(b) => b
    case JInt(i) => i != 0
    case JStr(s) => s != ""
    case JArr(xs) => xs != []
    case JObj(m) => m != map[]
  }

  predicate IsDigit(c: char) {
    '0' <= c <= '9'
  }

  predicate AllDigits(s: string) {
    forall i :: 0 <= i < |s| ==> IsDigit(s[i])
  }

  function DigitChar(d: nat): (c: char)
    requires d < 10
    ensures IsDigit(c) && c as int - '0' as int == d
  {
    ('0' as int + d) as char
  }

  /** The decimal digits of a natural number, most significant first, without leading zeros. */
  function Digits(n: nat): (s: string)
    ensures |s| > 0 && AllDigits(s)
    ensures |s| > 1 ==> s[0] != '0'
  {
    if n < 10 then [DigitChar(n)] else Digits(n / 10) + [DigitChar(n % 10)]
  }

  /** `str(n)` for a Python int: a minus sign for negative numbers, then the digits. */
  function Decimal(n: int): (s: string)
    ensures |s| > 0
    ensures n < 0 <==> s[0] == '-'
    ensures if n < 0 then |s| > 1 && AllDigits(s[1..]) else AllDigits(s)
    ensures n >= 0 && |s| > 1 ==> s[0] != '0'
    ensures n < 0 ==> s[1] != '0'
  {
    if n < 0 then
      var d := Digits(-n);
      assert ("-" + d)[1..] == d;
      "-" + d
    else Digits(n)
  }

  function DigitsValue(s: string): nat
    requires AllDigits(s)
  {
    if s == [] then 0 else DigitsValue(s[..|s| - 1]) * 10 + (s[|s| - 1] as int - '0' as int)
  }

  /** `int(s)` for a string: an optional minus sign followed by one or more ASCII digits. */
  function ParseInt(s: string): Option<int> {
    if |s| > 1 && s[0] == '-' && AllDigits(s[1..]) then Some(-(DigitsValue(s[1..]) as int))
    else if |s| > 0 && AllDigits(s) then Some(DigitsValue(s))
    else None
  }

  /** `int(j)`: an int as it is, a bool as 0 or 1, a string parsed; `None`, lists and dicts fail. */
  function IntOf(j: Json): Result<int> {
    match j
    case JInt(i) => Ok(i)
    case JBool(b) => Ok(if b then 1 else 0)
    case JStr(s) => if ParseInt(s).Some? then Ok(ParseInt(s).value) else Fail
    case _ => Fail
  }

  lemma {:induction false} DigitsRoundTrip(n: nat)
    ensures DigitsValue(Digits(n)) == n
  {
    if n >= 10 {
      DigitsRoundTrip(n / 10);
      var s := Digits(n);
      assert s[..|s| - 1] == Digits(n / 10);
    }
  }

  /**
   * What `int()` accepts and rejects: ints, bools as 0 and 1, and strings of
   * ASCII digits after an optional minus, leading zeros included; an empty
   * string, a lone minus, a decimal point, `None` and lists are rejected.
   */
  lemma IntExamples()
    ensures IntOf(JInt(-3)) == Ok(-3)
    ensures IntOf(JBool(true)) == Ok(1) && IntOf(JBool(false)) == Ok(0)
    ensures IntOf(JStr("007")) == Ok(7)
    ensures IntOf(JStr("-12")) == Ok(-12)
    ensures IntOf(JStr("-0")) == Ok(0)
    ensures IntOf(JStr("")).Fail? && IntOf(JStr("-")).Fail? && IntOf(JStr("1.5")).Fail?
    ensures IntOf(JNull).Fail? && IntOf(JArr([JInt(1)])).Fail?
  {
    assert DigitsValue("0") == 0;
    assert DigitsValue("00") == 0;
    assert DigitsValue("007") == 7;
    assert DigitsValue("1") == 1;
    assert DigitsValue("12") == 12;
    assert "-12"[1..] == "12";
    assert "-0"[1..] == "0";
    assert !IsDigit('.');
    assert !IsDigit('-');
  }

  /** The falsy values are exactly `None`, `False`, `0`, `""`, `[]` and `{}`; `"0"` is truthy. */
  lemma FalsyValues(j: Json)
    ensures !Truthy(j) <==> j in {JNull, JBool(false), JInt(0), JStr(""), JArr([]), JObj(map[])}
    ensures Truthy(JStr("0"))
  {
  }

  /** Parsing the rendering of an int gives that int back: `int(str(n)) == n`. */
  lemma DecimalRoundTrip(n: int)
    ensures ParseInt(Decimal(n)) == Some(n)
    ensures IntOf(JStr(Decimal(n))) == Ok(n)
  {
    if n < 0 {
      DigitsRoundTrip(-n);
      assert Decimal(n)[1..] == Digits(-n);
    } else {
      DigitsRoundTrip(n);
    }
  }

  /** Two ints with the same rendering are equal, so an `X_str` partner pins down `X`. */
  lemma DecimalInjective(a: int, b: int)
    ensures Decimal(a) == Decimal(b) ==> a == b
  {
    DecimalRoundTrip(a);
    DecimalRoundTrip(b);
  }

  /**
   * The one-character strings a Python string yields when indexed or iterated.
   * A definition of the built-in behaviour: its ensures spell out the definition.
   */
  function Chars(s: string): (r: seq<Json>)
    ensures |r| == |s|
    ensures forall i :: 0 <= i < |s| ==> r[i] == JStr([s[i]])
  {
    seq(|s|, i requires 0 <= i < |s| => JStr([s[i]]))
  }

  /**
   * The elements `len(j)` counts and `j[i]` indexes: the items of a list or the
   * characters of a string. A dict fails there, since its keys are strings and
   * never the int positions 0 and 1; every other value has no length. A
   * definition of the built-ins: its ensures spell out the definition.
   */
  function Indexable(j: Json): (r: Option<seq<Json>>)
    ensures r.Some? <==> j.JArr? || j.JStr?
    ensures j.JStr? ==> r == Some(Chars(j.s)) && |r.value| == |j.s|
    ensures j.JArr? ==> r == Some(j.items)
  {
    match j
    case JArr(xs) => Some(xs)
    case JStr(s) => Some(Chars(s))
    case _ => None
  }

  /** `d.pop(k)`: the value under `k`, or a `KeyError`. */
  function At(m: map<string, Json>, k: string): Result<Json> {
    if k in m then Ok(m[k]) else Fail
  }

  /** `d.pop(k, default)`. */
  function Get(m: map<string, Json>, k: string, default: Json): Json {
    if k in m then m[k] else default
  }
}
