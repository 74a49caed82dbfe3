/** Values the connector handles: JavaScript values as they come out of a decoded JSON payload,
    their truthiness (which drives every `x || default` in the streams), dates reduced to epoch
    milliseconds, and the few string conversions the streams perform. */
module Values {

  datatype Option<+T> = None | Some(value: T) {
    function GetOr(default: T): T {
      if Some? then value else default
    }
  }

  datatype Result<+R, +E> = Success(value: R) | Failure(error: E)

  /** A thrown JavaScript error, reduced to its `message`. */
  datatype JsError = JsError(message: string)

  /** A JavaScript value from a decoded JSON payload. `Undefined` is a key that is absent. */
  datatype JsValue =
    | Undefined
    | Null
    | Bool(b: bool)
    | Num(n: real)
    | Str(s: string)
    | Arr(elems: seq<JsValue>)
    | Obj(fields: map<string, JsValue>)

  const EmptyObject: JsValue := Obj(map[])

  /** JavaScript truthiness: undefined, null, false, 0 and "" are falsy, everything else is truthy. */
  predicate Truthy(v: JsValue) {
    match v
    case Undefined => false
    case Null => false
    case Bool(b) => b
    case Num(n) => n != 0.0
    case Str(s) => s != ""
    case Arr(_) => true
    case Obj(_) => true
  }

  /** `a || b` */
  function Or(a: JsValue, b: JsValue): JsValue {
    if Truthy(a) then a else b
  }

  /** `obj[key]` on a plain object; a missing key reads as undefined. */
  function Get(obj: map<string, JsValue>, key: string): JsValue {
    if key in obj then obj[key] else Undefined
  }

  /** A number field that the source reads as `x || 0`; `None` is an absent or null field. */
  function OrZero(x: Option<real>): real {
    if x.Some? then x.value else 0.0
  }

  /** `v` is what `x || 0` reads: the number when the field is present, and 0 otherwise. */
  predicate ZeroDefault(x: Option<real>, v: real) {
    && (x.Some? ==> v == x.value)
    && (x.None? ==> v == 0.0)
  }

  /** The value of `Date.prototype.getTime()` (or moment's `valueOf()`): epoch milliseconds,
      or NaN for a date that does not parse. */
  datatype Epoch = Ms(ms: int) | NaN

  // ---------------------------------------------------------------------------------------------
  // Strings

  function Digit(d: nat): char
    requires d < 10
  {
    ('0' as int + d) as char
  }

  /** Decimal rendering of a non-negative integer, as `${n}` produces it. */
  function NatToString(n: nat): (s: string)
    ensures |s| > 0
    ensures forall i | 0 <= i < |s| :: '0' <= s[i] <= '9'
    ensures n >= 10 <==> |s| >= 2
  {
    if n < 10 then [Digit(n)] else NatToString(n / 10) + [Digit(n % 10)]
  }

  /** Decimal rendering of an integer, with a leading '-' when negative. */
  function IntToString(i: int): (s: string)
    ensures |s| > 0 && (s[0] == '-' <==> i < 0)
    ensures forall k | 0 <= k < |s| :: s[k] != ':'
  {
    if i < 0 then "-" + NatToString(-i) else NatToString(i)
  }

  /** `${a}:${b}` */
  function Colon(a: string, b: string): string {
    a + ":" + b
  }

  /** In `${a}:${b}` with a colon-free `a`, the first colon is the one after `a`. */
  lemma FirstColon(a: string, b: string)
    requires ':' !in a
    ensures var s := Colon(a, b);
      |a| < |s| && s[|a|] == ':' && forall i | 0 <= i < |a| :: s[i] != ':'
  {
    var s := Colon(a, b);
    forall i | 0 <= i < |a|
      ensures s[i] != ':'
    {
      assert s[i] == a[i];
    }
  }

  /** A colon-joined pair splits back into its parts when the first part has no colon. */
  lemma SplitColon(a: string, b: string, c: string, d: string)
    requires ':' !in a && ':' !in c
    requires Colon(a, b) == Colon(c, d)
    ensures a == c && b == d
  {
    var s := Colon(a, b);
    FirstColon(a, b);
    FirstColon(c, d);
    assert |a| == |c|;
    assert a == s[..|a|] && c == s[..|c|];
    assert b == s[|a| + 1..] && d == s[|c| + 1..];
  }

  lemma {:induction false} NatToStringInjective(m: nat, n: nat)
    requires NatToString(m) == NatToString(n)
    ensures m == n
  {
    if m >= 10 && n >= 10 {
      var sm, sn := NatToString(m), NatToString(n);
      assert sm[..|sm| - 1] == NatToString(m / 10);
      assert sn[..|sn| - 1] == NatToString(n / 10);
      NatToStringInjective(m / 10, n / 10);
      assert sm[|sm| - 1] == Digit(m % 10);
      assert sn[|sn| - 1] == Digit(n % 10);
    }
  }

  /** Distinct integers render as distinct strings. */
  lemma IntToStringInjective(i: int, j: int)
    requires IntToString(i) == IntToString(j)
    ensures i == j
  {
    if i < 0 && j < 0 {
      assert IntToString(i)[1..] == NatToString(-i);
      assert IntToString(j)[1..] == NatToString(-j);
      NatToStringInjective(-i, -j);
    } else if i >= 0 && j >= 0 {
      NatToStringInjective(i, j);
    }
  }

  /** `String.prototype.toLowerCase` on the ASCII letters. */
  function LowerChar(c: char): char {
    if 'A' <= c <= 'Z' then (c as int + 32) as char else c
  }

  function ToLower(s: string): (r: string)
    ensures |r| == |s|
    ensures forall i | 0 <= i < |s| :: r[i] == LowerChar(s[i])
  {
    if s == [] then [] else [LowerChar(s[0])] + ToLower(s[1..])
  }

  lemma ToLowerIdempotent(s: string)
    ensures ToLower(ToLower(s)) == ToLower(s)
  {
    var once := ToLower(s);
    assert forall i | 0 <= i < |s| :: LowerChar(once[i]) == once[i];
  }

  /** `s.replace(pattern, replacement)` with a string pattern: only the first occurrence is replaced. */
  function ReplaceFirst(s: string, pattern: string, replacement: string): string
    decreases |s|
  {
    if pattern == [] then replacement + s
    else if |s| < |pattern| then s
    else if s[..|pattern|] == pattern then replacement + s[|pattern|..]
    else [s[0]] + ReplaceFirst(s[1..], pattern, replacement)
  }

  /** `parts.join(separator)` */
  function Join(parts: seq<string>, separator: string): string {
    if parts == [] then ""
    else if |parts| == 1 then parts[0]
    else Join(parts[..|parts| - 1], separator) + separator + parts[|parts| - 1]
  }

  /** How a template literal `${v}` renders a value; numbers go through the host's
      Number-to-String conversion, which is a parameter of the model. */
  function Display(v: JsValue, showNumber: real -> string): string {
    match v
    case Undefined => "undefined"
    case Null => "null"
    case Bool(b) => if b then "true" else "false"
    case Num(n) => showNumber(n)
    case Str(s) => s
    case Arr(xs) =>
      Join(seq(|xs|, i requires 0 <= i < |xs| =>
        if xs[i].Undefined? || xs[i].Null? then "" else Display(xs[i], showNumber)), ",")
    case Obj(_) => "[object Object]"
  }

  predicate IsHexDigit(c: char) {
    '0' <= c <= '9' || 'a' <= c <= 'f'
  }

  /** A SHA-256 digest rendered by `digest('hex')`: 64 lower-case hexadecimal characters. */
  type HexDigest = s: string | |s| == 64 && forall i | 0 <= i < |s| :: IsHexDigit(s[i])
    witness seq(64, _ => '0')
}
