/**
 * The few JavaScript value semantics the route handlers rely on: truthiness (`!x`, `x || y`,
 * `x ? a : b`), rendering inside a template literal, and `String.prototype.trim`.
 */
module JsText {
  import opened Wrappers

  /** `Number.MAX_SAFE_INTEGER`, 2^53 - 1: the largest integer a JavaScript number holds exactly. */
  const MaxSafeInteger := 0x1F_FFFF_FFFF_FFFF

  /**
   * The integers a JavaScript number holds exactly. All of them lie below 10^21, so `String(n)`
   * writes each one out digit by digit, without an exponent.
   */
  type SafeInteger = n: int | -MaxSafeInteger <= n <= MaxSafeInteger

  /** A primitive value read from a parsed JSON request body; numbers are safe integers. */
  datatype JsValue = Undefined | Null | Bool(b: bool) | Num(n: SafeInteger) | Str(s: string)

  /** JavaScript truthiness of a primitive value (NaN is not modelled). */
  predicate Truthy(v: JsValue) {
    match v
    case Undefined => false
    case Null => false
    case Bool(b) => b
    case Num(n) => n != 0
    case Str(s) => s != ""
  }

  /** Truthiness of an optional string: `undefined`, `null` and `""` are falsy. */
  predicate IsTruthy(o: Option<string>) {
    o.Some? && o.value != ""
  }

  function DigitChar(d: nat): (c: char)
    requires d < 10
    ensures '0' <= c <= '9' && c as int - '0' as int == d
  {
    "0123456789"[d]
  }

  /** Decimal digits of a natural number, most significant first, without leading zeros. */
  function NatToString(n: nat): (r: string)
    ensures 1 <= |r|
    ensures forall i :: 0 <= i < |r| ==> '0' <= r[i] <= '9'
    ensures r[0] == '0' ==> n == 0
    decreases n
  {
    if n < 10 then [DigitChar(n)] else NatToString(n / 10) + [DigitChar(n % 10)]
  }

  /** The number a string of decimal digits denotes. */
  function DigitsValue(s: string): nat
    requires forall i :: 0 <= i < |s| ==> '0' <= s[i] <= '9'
  {
    if s == [] then 0 else 10 * DigitsValue(s[..|s| - 1]) + (s[|s| - 1] as int - '0' as int)
  }

  /** Reading back the digits `NatToString` writes gives the number. */
  lemma {:induction false} NatToStringRoundTrip(n: nat)
    ensures DigitsValue(NatToString(n)) == n
    decreases n
  {
    var r := NatToString(n);
    if n < 10 {
      assert r[..0] == [];
    } else {
      NatToStringRoundTrip(n / 10);
      assert r[..|r| - 1] == NatToString(n / 10);
    }
  }

  /** How a value is rendered by `${v}` in a template literal. */
  function ToString(v: JsValue): string {
    match v
    case Undefined => "undefined"
    case Null => "null"
    case Bool(b) => if b then "true" else "false"
    case Num(n) => if n < 0 then "-" + NatToString(-n) else NatToString(n)
    case Str(s) => s
  }

  /** `${v || fallback}`: the value when truthy, the fallback text otherwise. */
  function OrElse(v: JsValue, fallback: string): string {
    if Truthy(v) then ToString(v) else fallback
  }

  /** The characters `trim` removes: ECMAScript WhiteSpace and LineTerminator code points. */
  predicate IsWhiteSpace(c: char) {
    || c == '\t' || c == '\n' || c == '\U{000B}' || c == '\U{000C}' || c == '\r' || c == ' '
    || c == '\U{00A0}' || c == '\U{1680}' || ('\U{2000}' <= c <= '\U{200A}')
    || c == '\U{2028}' || c == '\U{2029}' || c == '\U{202F}' || c == '\U{205F}'
    || c == '\U{3000}' || c == '\U{FEFF}'
  }

  /** Neither end of `s` is white space. */
  predicate Trimmed(s: string) {
    s == [] || (!IsWhiteSpace(s[0]) && !IsWhiteSpace(s[|s| - 1]))
  }

  /** `s` with its leading white space removed: the longest suffix that does not start with white space. */
  function TrimStart(s: string): (r: string)
    ensures |r| <= |s|
    ensures r == [] || !IsWhiteSpace(r[0])
  {
    if s != [] && IsWhiteSpace(s[0]) then TrimStart(s[1..]) else s
  }

  /** What `TrimStart` removes is white space, and what it keeps is the rest of `s`. */
  lemma {:induction false} TrimStartSpec(s: string)
    ensures TrimStart(s) == s[|s| - |TrimStart(s)|..]
    ensures forall i :: 0 <= i < |s| - |TrimStart(s)| ==> IsWhiteSpace(s[i])
  {
    if s != [] && IsWhiteSpace(s[0]) {
      TrimStartSpec(s[1..]);
      forall i | 1 <= i < |s| - |TrimStart(s)| ensures IsWhiteSpace(s[i]) {
        assert s[i] == s[1..][i - 1];
      }
    }
  }

  /** `s` with its trailing white space removed: the longest prefix that does not end with white space. */
  function TrimEnd(s: string): (r: string)
    ensures |r| <= |s|
    ensures r == [] || !IsWhiteSpace(r[|r| - 1])
  {
    if s != [] && IsWhiteSpace(s[|s| - 1]) then TrimEnd(s[..|s| - 1]) else s
  }

  /** What `TrimEnd` removes is white space, and what it keeps is the start of `s`. */
  lemma {:induction false} TrimEndSpec(s: string)
    ensures TrimEnd(s) == s[..|TrimEnd(s)|]
    ensures forall i :: |TrimEnd(s)| <= i < |s| ==> IsWhiteSpace(s[i])
  {
    if s != [] && IsWhiteSpace(s[|s| - 1]) {
      TrimEndSpec(s[..|s| - 1]);
      forall i | |TrimEnd(s)| <= i < |s| - 1 ensures IsWhiteSpace(s[i]) {
        assert s[i] == s[..|s| - 1][i];
      }
    }
  }

  /** `String.prototype.trim`. */
  function Trim(s: string): string {
    TrimEnd(TrimStart(s))
  }

  /** How many characters of leading white space `trim` cuts from `s`. */
  function LeadingSpace(s: string): (n: nat)
    ensures n <= |s|
  {
    |s| - |TrimStart(s)|
  }

  /** Nothing `trim` leaves starts or ends with white space. */
  lemma TrimIsTrimmed(s: string)
    ensures Trimmed(Trim(s))
  {
    var u := TrimStart(s);
    var r := TrimEnd(u);
    TrimEndSpec(u);
    if r != [] {
      assert r[0] == u[0];
    }
  }

  /** What `trim` keeps is a slice of `s`, starting after the leading white space. */
  lemma TrimIsSlice(s: string)
    ensures LeadingSpace(s) + |Trim(s)| <= |s|
    ensures Trim(s) == s[LeadingSpace(s)..LeadingSpace(s) + |Trim(s)|]
  {
    var u := TrimStart(s);
    var r := TrimEnd(u);
    TrimStartSpec(s);
    TrimEndSpec(u);
    var i := |s| - |u|;
    assert u == s[i..];
    assert r == u[..|r|];
  }

  /** Everything `trim` cuts away after what it keeps is white space. */
  lemma TrimCutsTrailingSpace(s: string)
    ensures LeadingSpace(s) + |Trim(s)| <= |s|
    ensures forall k :: LeadingSpace(s) + |Trim(s)| <= k < |s| ==> IsWhiteSpace(s[k])
  {
    var u := TrimStart(s);
    TrimStartSpec(s);
    TrimEndSpec(u);
    var i := |s| - |u|;
    forall k | i + |Trim(s)| <= k < |s| ensures IsWhiteSpace(s[k]) {
      assert s[k] == u[k - i];
    }
  }

  /** `trim` removes exactly the white space at both ends: what is left is a slice of the input
      with no white space at either end, and everything cut away is white space. */
  lemma TrimSpec(s: string)
    ensures Trimmed(Trim(s))
    ensures LeadingSpace(s) + |Trim(s)| <= |s|
    ensures Trim(s) == s[LeadingSpace(s)..LeadingSpace(s) + |Trim(s)|]
    ensures forall k :: 0 <= k < LeadingSpace(s) ==> IsWhiteSpace(s[k])
    ensures forall k :: LeadingSpace(s) + |Trim(s)| <= k < |s| ==> IsWhiteSpace(s[k])
  {
    TrimIsTrimmed(s);
    TrimIsSlice(s);
    TrimStartSpec(s);
    TrimCutsTrailingSpace(s);
  }

  /** A string with no white space at its ends is left as it is. */
  lemma TrimFixesTrimmed(s: string)
    requires Trimmed(s)
    ensures Trim(s) == s
  {
  }

  /** Trimming twice is trimming once. */
  lemma TrimIdempotent(s: string)
    ensures Trim(Trim(s)) == Trim(s)
  {
    TrimSpec(s);
    TrimFixesTrimmed(Trim(s));
  }

  predicate StartsWith(s: string, prefix: string) {
    |prefix| <= |s| && s[..|prefix|] == prefix
  }

  predicate EndsWith(s: string, suffix: string) {
    |suffix| <= |s| && s[|s| - |suffix|..] == suffix
  }
}
