/** The few JavaScript value semantics the portal relies on: nullish and truthy
    values, `||` and `??`, `asString`, `String.prototype.trim`, and the decimal
    rendering of integers inside template literals. */
module Js {

  /** A JavaScript value as the portal sees it. `Other` is any value that is not
      a string, `null` or `undefined` (a number, a boolean, an object); it
      carries what `String(v)` renders it as and whether it is truthy, both left
      uninterpreted. */
  datatype Value = Undefined | Null | Str(s: string) | Other(text: string, truthy: bool)

  predicate IsNullish(v: Value) {
    v.Undefined? || v.Null?
  }

  predicate Truthy(v: Value) {
    match v
    case Undefined => false
    case Null => false
    case Str(s) => s != ""
    case Other(_, t) => t
  }

  /** `a || b` */
  function Or(a: Value, b: Value): Value {
    if Truthy(a) then a else b
  }

  /** `a ?? b` */
  function Coalesce(a: Value, b: Value): Value {
    if IsNullish(a) then b else a
  }

  /** `asString(v)`: null and undefined become the empty string, a string is
      kept, anything else is rendered by `String(v)`. Applying it to its own
      result changes nothing. */
  function AsString(v: Value): (r: string)
    ensures IsNullish(v) ==> r == ""
    ensures v.Str? ==> r == v.s
  {
    match v
    case Undefined => ""
    case Null => ""
    case Str(s) => s
    case Other(text, _) => text
  }

  /** `asString` is idempotent. */
  lemma AsStringIdempotent(v: Value)
    ensures AsString(Str(AsString(v))) == AsString(v)
  {
  }

  /** A plain object decoded from JSON: its own properties. */
  type Object = map<string, Value>

  /** `o.key`: a missing property reads as `undefined`. */
  function Get(o: Object, key: string): Value {
    if key in o then o[key] else Undefined
  }

  // ----- String.prototype.trim -----

  /** The characters `trim` removes: WhiteSpace and LineTerminator of ECMA-262. */
  predicate IsWhitespace(c: char) {
    || c == '\t' || c == '\n' || c == '\U{000B}' || c == '\U{000C}' || c == '\r'
    || c == ' ' || c == '\U{00A0}' || c == '\U{1680}'
    || ('\U{2000}' <= c <= '\U{200A}')
    || c == '\U{2028}' || c == '\U{2029}' || c == '\U{202F}' || c == '\U{205F}'
    || c == '\U{3000}' || c == '\U{FEFF}'
  }

  predicate AllWhitespace(s: string) {
    forall i :: 0 <= i < |s| ==> IsWhitespace(s[i])
  }

  /** Drops the leading whitespace. */
  function TrimStart(s: string): string {
    if s != [] && IsWhitespace(s[0]) then TrimStart(s[1..]) else s
  }

  /** Drops the trailing whitespace. */
  function TrimEnd(s: string): string {
    if s != [] && IsWhitespace(s[|s| - 1]) then TrimEnd(s[..|s| - 1]) else s
  }

  /** `TrimStart` keeps a suffix of `s`, drops only whitespace, and leaves no
      whitespace at the front. */
  lemma {:induction false} TrimStartSpec(s: string)
    ensures var r := TrimStart(s);
      && |r| <= |s| && r == s[|s| - |r|..]
      && AllWhitespace(s[..|s| - |r|])
      && (r == [] || !IsWhitespace(r[0]))
  {
    if s != [] && IsWhitespace(s[0]) {
      TrimStartSpec(s[1..]);
      var r := TrimStart(s);
      var dropped := s[..|s| - |r|];
      forall i | 0 <= i < |dropped| ensures IsWhitespace(dropped[i]) {
        if i > 0 {
          assert dropped[i] == s[1..][..|s| - 1 - |r|][i - 1];
        }
      }
    }
  }

  /** `TrimEnd` keeps a prefix of `s`, drops only whitespace, and leaves no
      whitespace at the end. */
  lemma {:induction false} TrimEndSpec(s: string)
    ensures var r := TrimEnd(s);
      && |r| <= |s| && r == s[..|r|]
      && AllWhitespace(s[|r|..])
      && (r == [] || !IsWhitespace(r[|r| - 1]))
  {
    if s != [] && IsWhitespace(s[|s| - 1]) {
      TrimEndSpec(s[..|s| - 1]);
      var r := TrimEnd(s);
      var dropped := s[|r|..];
      forall j | 0 <= j < |dropped| ensures IsWhitespace(dropped[j]) {
        if j < |s| - 1 - |r| {
          assert dropped[j] == s[..|s| - 1][|r|..][j];
        }
      }
    }
  }

  /** `s.trim()` */
  function Trim(s: string): string {
    TrimEnd(TrimStart(s))
  }

  /** `s.trim().length > 0` */
  predicate NonBlank(s: string) {
    |Trim(s)| > 0
  }

  /** A string trims to nothing exactly when every character is whitespace;
      in particular a non-blank string is not empty. */
  lemma BlankIffAllWhitespace(s: string)
    ensures !NonBlank(s) <==> AllWhitespace(s)
    ensures NonBlank(s) ==> s != ""
  {
    TrimStartSpec(s);
    TrimEndSpec(TrimStart(s));
  }

  // ----- Decimal rendering of integers -----

  predicate IsDigit(c: char) {
    '0' <= c <= '9'
  }

  predicate AllDigits(s: string) {
    forall i :: 0 <= i < |s| ==> IsDigit(s[i])
  }

  function DigitChar(d: nat): (c: char)
    requires d < 10
    ensures IsDigit(c) && c as int - '0' as int == d
  {
    (48 + d) as char
  }

  /** The decimal rendering of a natural number, as a template literal
      produces it for a safe integer: a non-empty run of digits. */
  function NatToString(n: nat): (r: string)
    ensures |r| > 0 && AllDigits(r)
  {
    if n < 10 then [DigitChar(n)] else NatToString(n / 10) + [DigitChar(n % 10)]
  }

  /** Reads a run of decimal digits back as a number. */
  function DigitsValue(s: string): nat
    requires AllDigits(s)
  {
    if s == [] then 0 else DigitsValue(s[..|s| - 1]) * 10 + (s[|s| - 1] as int - '0' as int)
  }

  /** Reading back the decimal rendering gives the number again. */
  lemma {:induction false} DigitsRoundTrip(n: nat)
    ensures DigitsValue(NatToString(n)) == n
  {
    if n >= 10 {
      DigitsRoundTrip(n / 10);
      var s := NatToString(n);
      assert s[..|s| - 1] == NatToString(n / 10);
    }
  }

  /** Distinct numbers render as distinct strings. */
  lemma NatToStringInjective(a: nat, b: nat)
    ensures NatToString(a) == NatToString(b) ==> a == b
  {
    DigitsRoundTrip(a);
    DigitsRoundTrip(b);
  }

  /** The rendering of an integer: a minus sign before the magnitude when negative. */
  function IntToString(i: int): string {
    if i < 0 then "-" + NatToString(-i) else NatToString(i)
  }
}
