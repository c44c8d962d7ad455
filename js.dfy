/** The JavaScript value semantics the application's logic relies on:
    truthiness of optional values, the \s whitespace class, parseInt and
    parseFloat, String(n) for integers, the truncating `%` operator,
    Array.prototype.slice, String.prototype.trim and the one use of split. */
module Js {

  datatype Option<+T> = None | Some(value: T)

  /** The number produced by parseInt or parseFloat: NaN, or a finite value. */
  datatype Num = NaN | Num(value: real)

  /** The outcome of one request whose body is decoded as T: a rejected fetch
      (carrying the error's message), a response that is not ok, or an ok
      response with its body. */
  datatype Fetched<T> = NetworkError(message: string) | NotOk | Received(body: T)

  /** The message a failed request leaves in an error field: the rejection's
      own message, or the fixed message the caller throws for a non-ok status. */
  function FailureMessage<T>(f: Fetched<T>, notOkMessage: string): (m: string)
    requires !f.Received?
    ensures f.NotOk? ==> m == notOkMessage
    ensures f.NetworkError? ==> m == f.message
  {
    if f.NotOk? then notOkMessage else f.message
  }

  /** `!!s` for a value that is null, undefined or a string. */
  predicate Present(s: Option<string>) {
    s.Some? && s.value != ""
  }

  /** A dictionary read `obj[key]` on a string-valued object, where a missing
      key reads as undefined; since undefined and "" are both falsy and the
      application only tests such reads for truthiness before comparing
      them, a missing key is read as "". */
  function Get(m: map<string, string>, key: string): string {
    if key in m then m[key] else ""
  }

  /** The characters in \s and stripped by trim and by the number parsers:
      ECMAScript's WhiteSpace and LineTerminator code points. */
  predicate IsSpace(c: char) {
    || c == ' ' || c == '\t' || c == '\n' || c == '\r' || c == '\U{B}' || c == '\U{C}'
    || c == '\U{A0}' || c == '\U{1680}' || ('\U{2000}' <= c <= '\U{200A}')
    || c == '\U{2028}' || c == '\U{2029}' || c == '\U{202F}' || c == '\U{205F}'
    || c == '\U{3000}' || c == '\U{FEFF}'
  }

  predicate IsDigit(c: char) {
    '0' <= c <= '9'
  }

  predicate AllDigits(s: string) {
    forall k :: 0 <= k < |s| ==> IsDigit(s[k])
  }

  function DigitValue(c: char): nat
    requires IsDigit(c)
  {
    (c as int) - ('0' as int)
  }

  function DigitChar(d: nat): (c: char)
    requires d < 10
    ensures IsDigit(c) && DigitValue(c) == d
  {
    ('0' as int + d) as char
  }

  /** Length of the longest prefix of `s` made of decimal digits. */
  function DigitRun(s: string): (n: nat)
    ensures n <= |s| && AllDigits(s[..n])
    ensures n < |s| ==> !IsDigit(s[n])
  {
    if s == [] || !IsDigit(s[0]) then 0
    else
      var n := 1 + DigitRun(s[1..]);
      assert s[..n] == [s[0]] + s[1..][..n - 1];
      n
  }

  /** Length of the longest prefix of `s` made of white space. */
  function SpaceRun(s: string): (n: nat)
    ensures n <= |s| && forall k :: 0 <= k < n ==> IsSpace(s[k])
    ensures n < |s| ==> !IsSpace(s[n])
  {
    if s == [] || !IsSpace(s[0]) then 0 else 1 + SpaceRun(s[1..])
  }

  /** The value of a string of decimal digits, most significant first. */
  function DigitsValue(ds: string): nat
    requires AllDigits(ds)
  {
    if ds == [] then 0 else DigitsValue(ds[..|ds| - 1]) * 10 + DigitValue(ds[|ds| - 1])
  }

  /** The value of the digits after a decimal point: 0.d1d2d3... */
  function FractionValue(ds: string): real
    requires AllDigits(ds)
  {
    if ds == [] then 0.0 else (DigitValue(ds[0]) as real + FractionValue(ds[1..])) / 10.0
  }

  /** The text after the leading white space and an optional sign, and whether that sign was '-'. */
  function Unsigned(s: string): (r: (bool, string))
    ensures |r.1| <= |s|
  {
    var t := s[SpaceRun(s)..];
    if |t| > 0 && (t[0] == '-' || t[0] == '+') then (t[0] == '-', t[1..]) else (false, t)
  }

  function Signed(negative: bool, magnitude: real): real {
    if negative then -magnitude else magnitude
  }

  /** parseInt(s, 10): the longest run of digits after white space and an
      optional sign; NaN when there is none. */
  function ParseInt(s: string): Num {
    var (negative, body) := Unsigned(s);
    var n := DigitRun(body);
    if n == 0 then NaN else Num(Signed(negative, DigitsValue(body[..n]) as real))
  }

  /** parseFloat(s) on decimal text: digits, optionally a '.' and more
      digits, after white space and an optional sign; NaN when neither part
      has a digit. */
  function ParseFloat(s: string): Num {
    var (negative, body) := Unsigned(s);
    var n := DigitRun(body);
    var rest := body[n..];
    var f := if |rest| > 0 && rest[0] == '.' then DigitRun(rest[1..]) else 0;
    if n == 0 && f == 0 then NaN
    else
      var fraction := if f == 0 then 0.0 else FractionValue(rest[1..][..f]);
      Num(Signed(negative, DigitsValue(body[..n]) as real + fraction))
  }

  /** Decimal digits of a natural number, as String(n) writes them. */
  function NatToString(n: nat): (s: string)
    ensures |s| > 0 && AllDigits(s)
  {
    if n < 10 then [DigitChar(n)] else NatToString(n / 10) + [DigitChar(n % 10)]
  }

  /** String(n) for an integer n. */
  function IntToString(i: int): string {
    if i < 0 then "-" + NatToString(-i) else NatToString(i)
  }

  /** String(x) for a value that is an integer or undefined. */
  function IdString(id: Option<int>): string {
    if id.Some? then IntToString(id.value) else "undefined"
  }

  lemma {:induction false} NatToStringValue(n: nat)
    ensures DigitsValue(NatToString(n)) == n
  {
    if n >= 10 {
      NatToStringValue(n / 10);
      var s := NatToString(n);
      assert s[..|s| - 1] == NatToString(n / 10);
    }
  }

  /** parseInt reads back the text String(i) writes: the two are inverse on integers. */
  lemma {:induction false} ParseIntOfIntToString(i: int)
    ensures ParseInt(IntToString(i)) == Num(i as real)
  {
    var m: nat := if i < 0 then -i else i;
    var digits := NatToString(m);
    var s := IntToString(i);
    assert SpaceRun(s) == 0;
    assert s[0..] == s;
    var (negative, body) := Unsigned(s);
    assert body == digits && negative == (i < 0);
    assert DigitRun(body) == |digits| by {
      DigitRunOfDigits(digits);
    }
    assert body[..|digits|] == digits;
    NatToStringValue(m);
  }

  /** parseFloat, too, reads back String(i) exactly. */
  lemma {:induction false} ParseFloatOfIntToString(i: int)
    ensures ParseFloat(IntToString(i)) == Num(i as real)
  {
    var m: nat := if i < 0 then -i else i;
    var digits := NatToString(m);
    var s := IntToString(i);
    assert SpaceRun(s) == 0;
    assert s[0..] == s;
    var (negative, body) := Unsigned(s);
    assert body == digits && negative == (i < 0);
    DigitRunOfDigits(digits);
    assert body[..|digits|] == digits;
    assert body[|digits|..] == [];
    NatToStringValue(m);
  }

  lemma {:induction false} DigitRunOfDigits(s: string)
    requires AllDigits(s)
    ensures DigitRun(s) == |s|
  {
    if s != [] {
      DigitRunOfDigits(s[1..]);
    }
  }

  /** JavaScript's `a % b`: the remainder takes the sign of the dividend. */
  function JsRem(a: int, b: int): (r: int)
    requires b != 0
    ensures a >= 0 ==> 0 <= r < (if b > 0 then b else -b)
    ensures a >= 0 ==> r == a % b
  {
    if a >= 0 then a % b else -((-a) % b)
  }

  /** How Array.prototype.slice resolves one bound against a length: a
      negative bound counts from the end, and the result is clamped to [0, len]. */
  function SliceBound(i: int, len: nat): (r: nat)
    ensures r <= len
    ensures 0 <= i <= len ==> r == i
  {
    if i < 0 then (if len + i < 0 then 0 else len + i) else if i > len then len else i
  }

  /** Array.prototype.slice(start, end). */
  function JsSlice<T>(s: seq<T>, start: int, end: int): (r: seq<T>)
    ensures |r| <= |s|
    ensures 0 <= start <= end <= |s| ==> r == s[start..end]
  {
    var a := SliceBound(start, |s|);
    var b := SliceBound(end, |s|);
    if a < b then s[a..b] else []
  }

  function TrimEnd(s: string): (r: string)
    ensures |r| <= |s| && r == s[..|r|]
    ensures r != [] ==> !IsSpace(r[|r| - 1])
    ensures forall k :: |r| <= k < |s| ==> IsSpace(s[k])
  {
    if s != [] && IsSpace(s[|s| - 1]) then TrimEnd(s[..|s| - 1]) else s
  }

  /** String.prototype.trim. */
  function Trim(s: string): string {
    TrimEnd(s[SpaceRun(s)..])
  }

  /** `s.trim()` is truthy exactly when `s` has a character that is not white space. */
  lemma {:induction false} TrimNonEmptyIff(s: string)
    ensures Trim(s) != "" <==> exists k :: 0 <= k < |s| && !IsSpace(s[k])
  {
    var n := SpaceRun(s);
    var t := s[n..];
    if Trim(s) != "" {
      var r := Trim(s);
      assert r == t[..|r|];
      assert !IsSpace(s[n + |r| - 1]);
    } else {
      TrimEndEmptyHead(t);
    }
  }

  lemma {:induction false} TrimEndEmptyHead(s: string)
    ensures TrimEnd(s) == "" && |s| > 0 ==> IsSpace(s[0])
  {
  }

  predicate StartsWith(s: string, prefix: string) {
    |prefix| <= |s| && s[..|prefix|] == prefix
  }

  /** The text of `s` before the first occurrence of the non-empty `sep`
      (all of `s` when there is none). */
  function BeforeFirst(s: string, sep: string): (r: string)
    requires sep != ""
    ensures |r| <= |s| && r == s[..|r|]
    ensures forall k :: 0 <= k < |r| ==> !StartsWith(s[k..], sep)
    ensures |r| < |s| ==> StartsWith(s[|r|..], sep)
  {
    if s == [] || StartsWith(s, sep) then ""
    else
      var r := [s[0]] + BeforeFirst(s[1..], sep);
      assert forall k :: 1 <= k < |r| ==> s[k..] == s[1..][k - 1..];
      assert s[|r|..] == s[1..][|r| - 1..];
      r
  }

  /** `name.split(sep)[1]` for a name that starts with `sep`: the piece
      between the first occurrence and the next one (or the end). */
  function SecondPiece(name: string, sep: string): string
    requires sep != "" && StartsWith(name, sep)
  {
    BeforeFirst(name[|sep|..], sep)
  }
}
