/** The few pieces of JavaScript runtime behaviour the rest of the model relies on:
    optional values, what a `catch` clause receives, truthiness, `String.prototype.includes`,
    and `Number.prototype.toString` on integers. */
module Js {

  datatype Option<+T> = None | Some(value: T)

  /** What a `catch (error)` clause receives: an `Error` carrying its message, or any other thrown value. */
  datatype Thrown = ErrorObject(message: string) | OtherValue

  /** A value that was either computed or thrown. */
  datatype Result<+T> = Ok(value: T) | Throws(thrown: Thrown)

  /** `error instanceof Error ? error.message : fallback`, the message every catch clause of the core reports. */
  function MessageOr(e: Thrown, fallback: string): string
  {
    match e
    case ErrorObject(m) => m
    case OtherValue => fallback
  }

  /** Truthiness of an optional string: absent, `null` and `""` are falsy. */
  predicate Truthy(s: Option<string>)
  {
    s.Some? && s.value != ""
  }

  /** A JSON scalar found in a request body. An absent key (`undefined`) is `None` of an `Option<JsValue>`. */
  datatype JsValue = JsNull | JsBool(b: bool) | JsNumber(n: int) | JsString(s: string)

  // ---------------------------------------------------------------------------
  // String.prototype.includes

  predicate IsPrefix(t: string, s: string)
  {
    |t| <= |s| && s[..|t|] == t
  }

  /** `s.includes(t)`: `t` occurs somewhere in `s`. */
  predicate Includes(s: string, t: string)
    decreases |s|
  {
    IsPrefix(t, s) || (|s| > 0 && Includes(s[1..], t))
  }

  /** Whatever surrounds it, a string includes each of its infixes. */
  lemma {:induction false} IncludesInfix(a: string, t: string, b: string)
    ensures Includes(a + t + b, t)
  {
    if a == [] {
      assert a + t + b == t + b;
      assert (t + b)[..|t|] == t;
    } else {
      IncludesInfix(a[1..], t, b);
      assert (a + t + b)[1..] == a[1..] + t + b;
    }
  }

  /** `t` occurs in `s` starting at index `i`. */
  predicate OccursAt(s: string, t: string, i: int)
  {
    0 <= i <= |s| - |t| && s[i..i + |t|] == t
  }

  /** Conversely, a string that includes `t` holds `t` at some position. */
  lemma {:induction false} IncludesHasInfix(s: string, t: string)
    requires Includes(s, t)
    ensures exists i :: OccursAt(s, t, i)
    decreases |s|
  {
    if IsPrefix(t, s) {
      assert OccursAt(s, t, 0);
    } else {
      IncludesHasInfix(s[1..], t);
      var i :| OccursAt(s[1..], t, i);
      assert s[i + 1..i + 1 + |t|] == s[1..][i..i + |t|];
      assert OccursAt(s, t, i + 1);
    }
  }

  // ---------------------------------------------------------------------------
  // Number.prototype.toString on integers: the decimal digits, '-' before negatives
  // (integers below 10^21 in magnitude print this way; larger ones use exponent form)

  function DigitChar(d: nat): (c: char)
    requires d < 10
    ensures '0' <= c <= '9'
  {
    "0123456789"[d]
  }

  function Pow10(k: nat): (p: nat)
    ensures p >= 1
  {
    if k == 0 then 1 else 10 * Pow10(k - 1)
  }

  /** Decimal digits of `n`, most significant first, with no leading zero. */
  function NatToString(n: nat): (s: string)
    ensures 1 <= |s|
    ensures forall i :: 0 <= i < |s| ==> '0' <= s[i] <= '9'
    ensures |s| > 1 ==> s[0] != '0'
    decreases n
  {
    if n < 10 then [DigitChar(n)] else NatToString(n / 10) + [DigitChar(n % 10)]
  }

  /** A number of at least `10^k` prints with more than `k` digits. */
  lemma {:induction false} NatToStringLength(n: nat, k: nat)
    requires Pow10(k) <= n
    ensures |NatToString(n)| > k
  {
    if k > 0 {
      assert Pow10(k) == 10 * Pow10(k - 1);
      assert Pow10(k - 1) <= n / 10;
      NatToStringLength(n / 10, k - 1);
    }
  }

  /** The number a string of decimal digits denotes. */
  function DigitsValue(s: string): nat
    requires forall i :: 0 <= i < |s| ==> '0' <= s[i] <= '9'
  {
    if s == [] then 0 else 10 * DigitsValue(s[..|s| - 1]) + (s[|s| - 1] - '0') as nat
  }

  /** The printed digits denote the number printed, so distinct numbers print differently. */
  lemma {:induction false} NatToStringValue(n: nat)
    ensures DigitsValue(NatToString(n)) == n
    decreases n
  {
    if n >= 10 {
      NatToStringValue(n / 10);
      var s := NatToString(n);
      assert s[..|s| - 1] == NatToString(n / 10);
    }
  }

  lemma NatToStringInjective(m: nat, n: nat)
    requires NatToString(m) == NatToString(n)
    ensures m == n
  {
    NatToStringValue(m);
    NatToStringValue(n);
  }

  /** A number below `10^k` prints with at most `k` digits. */
  lemma {:induction false} NatToStringShort(n: nat, k: nat)
    requires 1 <= k && n < Pow10(k)
    ensures |NatToString(n)| <= k
  {
    if n >= 10 {
      assert Pow10(1) == 10 by { assert Pow10(0) == 1; }
      assert k >= 2;
      assert Pow10(k) == 10 * Pow10(k - 1);
      NatToStringShort(n / 10, k - 1);
    }
  }

  /** `n` with its last `j` decimal digits dropped: `j` times `Math.floor(n / 10)`. */
  function DropDigits(n: nat, j: nat): nat
  {
    if j == 0 then n else DropDigits(n / 10, j - 1)
  }

  /** Dropping the last `j` characters of the text is printing `n` with its last `j` digits dropped. */
  lemma {:induction false} NatToStringPrefix(n: nat, j: nat)
    requires Pow10(j) <= n
    ensures j < |NatToString(n)|
    ensures NatToString(n)[..|NatToString(n)| - j] == NatToString(DropDigits(n, j))
  {
    NatToStringLength(n, j);
    if j > 0 {
      assert Pow10(j) == 10 * Pow10(j - 1);
      NatToStringPrefix(n / 10, j - 1);
      var s, t := NatToString(n), NatToString(n / 10);
      assert s == t + [DigitChar(n % 10)];
      assert s[..|s| - j] == t[..|t| - (j - 1)];
    }
  }

  function IntToString(i: int): string
  {
    if i < 0 then "-" + NatToString(-i) else NatToString(i)
  }

  /** `String(v)` (equivalently `v.toString()`) for a non-null scalar. */
  function ToJsString(v: JsValue): string
    requires !v.JsNull?
  {
    match v
    case JsBool(b) => if b then "true" else "false"
    case JsNumber(n) => IntToString(n)
    case JsString(s) => s
  }

  /** V8's message for `undefined.toString()` and `null.toString()`. */
  const TO_STRING_OF_UNDEFINED := "Cannot read properties of undefined (reading 'toString')"
  const TO_STRING_OF_NULL := "Cannot read properties of null (reading 'toString')"

  /** `v.toString()` on a possibly absent or null value: a TypeError for those two. */
  function CallToString(v: Option<JsValue>): (r: Result<string>)
    ensures r.Ok? <==> v.Some? && !v.value.JsNull?
    ensures r.Ok? ==> r.value == ToJsString(v.value)
    ensures v.None? ==> r == Throws(ErrorObject(TO_STRING_OF_UNDEFINED))
    ensures v == Some(JsNull) ==> r == Throws(ErrorObject(TO_STRING_OF_NULL))
  {
    match v
    case None => Throws(ErrorObject(TO_STRING_OF_UNDEFINED))
    case Some(JsNull) => Throws(ErrorObject(TO_STRING_OF_NULL))
    case Some(x) => Ok(ToJsString(x))
  }

  /** `v?.toString()`: optional chaining yields `undefined` (here `None`) for absent and null values. */
  function OptionalToString(v: Option<JsValue>): (r: Option<string>)
    ensures r.None? <==> v.None? || v.value.JsNull?
    ensures r.Some? ==> r.value == ToJsString(v.value)
  {
    match v
    case None => None
    case Some(JsNull) => None
    case Some(x) => Some(ToJsString(x))
  }

  /** Optional chaining is the plain call with its TypeError turned into `undefined`: both give
      the same text on a present non-null value, and the plain call throws an Error exactly where
      the optional one yields nothing. */
  lemma ToStringForms(v: Option<JsValue>)
    ensures CallToString(v).Ok? <==> OptionalToString(v).Some?
    ensures CallToString(v).Ok? ==> CallToString(v).value == OptionalToString(v).value
    ensures CallToString(v).Throws? ==> CallToString(v).thrown.ErrorObject?
  {
  }
}
