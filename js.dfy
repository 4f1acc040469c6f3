/** The parts of the JavaScript runtime the parsers lean on, stated exactly:
    the cell values a decoded sheet row holds, truthiness and the `a || b || c`
    chains the parsers use to try header aliases, String(), parseFloat,
    parseInt, Math.round, toFixed(1), trim, toLowerCase and substring tests. */
module Js {
  import opened Types

  /** A cell of a decoded sheet row. A numeric cell carries its value and the
      text String() prints for it (number formatting is the engine's); a
      spreadsheet TRUE/FALSE cell decodes to a boolean. */
  datatype Value = Undefined | Null | Bool(b: bool) | Num(x: real, text: string) | Str(s: string)

  /** A sheet row keyed by its header cells. */
  type Row = map<string, Value>

  /** row[key]: a missing key reads as undefined. */
  function Get(row: Row, key: string): Value
  {
    if key in row then row[key] else Undefined
  }

  /** JavaScript truthiness of a cell value. */
  predicate Truthy(v: Value)
  {
    match v
    case Undefined => false
    case Null => false
    case Bool(b) => b
    case Num(x, _) => x != 0.0
    case Str(s) => s != ""
  }

  /** The cells of `row` under `keys`, in order. */
  function Cells(row: Row, keys: seq<string>): (vs: seq<Value>)
    ensures |vs| == |keys|
    ensures forall i :: 0 <= i < |keys| ==> vs[i] == Get(row, keys[i])
  {
    seq(|keys|, i requires 0 <= i < |keys| => Get(row, keys[i]))
  }

  /** `vs[0] || vs[1] || ... || vs[n-1]`: the first truthy operand, or the
      last operand when none before it is truthy. */
  function OrChain(vs: seq<Value>): (r: Value)
    requires |vs| > 0
    ensures exists k :: 0 <= k < |vs| && r == vs[k] && (Truthy(r) || k == |vs| - 1)
                        && forall j :: 0 <= j < k ==> !Truthy(vs[j])
  {
    if |vs| == 1 || Truthy(vs[0]) then vs[0]
    else
      var r := OrChain(vs[1..]);
      ghost var k :| 0 <= k < |vs[1..]| && r == vs[1..][k] && (Truthy(r) || k == |vs[1..]| - 1)
                     && forall j :: 0 <= j < k ==> !Truthy(vs[1..][j]);
      assert r == vs[k + 1];
      r
  }

  /** String(v). */
  function ToText(v: Value): string
  {
    match v
    case Undefined => "undefined"
    case Null => "null"
    case Bool(b) => if b then "true" else "false"
    case Num(_, t) => t
    case Str(s) => s
  }

  /** parseFloat(String(v)): printing a number and reading it back gives the number. */
  function NumberOf(v: Value): JsNumber
  {
    match v
    case Num(x, _) => Fin(x)
    case _ => ParseFloat(ToText(v))
  }

  // ---------------------------------------------------------------- characters

  predicate IsDigit(c: char)
  {
    '0' <= c <= '9'
  }

  predicate AllDigits(s: string)
  {
    forall i :: 0 <= i < |s| ==> IsDigit(s[i])
  }

  function DigitValue(c: char): nat
    requires IsDigit(c)
  {
    c as int - '0' as int
  }

  function DigitChar(d: nat): (c: char)
    requires d < 10
    ensures IsDigit(c) && DigitValue(c) == d
  {
    ('0' as int + d) as char
  }

  /** The white space and line terminators that trim and parseFloat skip. */
  predicate IsSpace(c: char)
  {
    c == ' ' || c == '\t' || c == '\n' || c == '\r' || c == '\U{000B}' || c == '\U{000C}'
    || c == '\U{00A0}' || c == '\U{1680}' || ('\U{2000}' <= c <= '\U{200A}')
    || c == '\U{2028}' || c == '\U{2029}' || c == '\U{202F}' || c == '\U{205F}'
    || c == '\U{3000}' || c == '\U{FEFF}'
  }

  // ---------------------------------------------------------------- strings

  function TrimStart(s: string): (t: string)
    ensures |t| <= |s| && t == s[|s| - |t|..]
    ensures t == [] || !IsSpace(t[0])
  {
    if |s| > 0 && IsSpace(s[0]) then TrimStart(s[1..]) else s
  }

  function TrimEnd(s: string): (t: string)
    ensures |t| <= |s| && t == s[..|t|]
    ensures t == [] || !IsSpace(t[|t| - 1])
  {
    if |s| > 0 && IsSpace(s[|s| - 1]) then TrimEnd(s[..|s| - 1]) else s
  }

  /** String.prototype.trim. */
  function Trim(s: string): string
  {
    TrimEnd(TrimStart(s))
  }

  function LowerChar(c: char): char
  {
    if 'A' <= c <= 'Z' then (c as int + 32) as char else c
  }

  /** String.prototype.toLowerCase on the ASCII letters; Hangul has no case. */
  function ToLower(s: string): (t: string)
    ensures |t| == |s|
    ensures forall i :: 0 <= i < |s| ==> t[i] == LowerChar(s[i])
  {
    seq(|s|, i requires 0 <= i < |s| => LowerChar(s[i]))
  }

  predicate StartsWith(s: string, prefix: string)
  {
    |prefix| <= |s| && s[..|prefix|] == prefix
  }

  predicate EndsWith(s: string, suffix: string)
  {
    |suffix| <= |s| && s[|s| - |suffix|..] == suffix
  }

  /** `sub` occurs in `s` starting at position i. */
  predicate OccursAt(s: string, sub: string, i: int)
  {
    0 <= i && i + |sub| <= |s| && s[i..i + |sub|] == sub
  }

  /** String.prototype.includes: some position of `s` starts a copy of `sub`. */
  predicate Contains(s: string, sub: string)
  {
    exists i :: 0 <= i <= |s| - |sub| && OccursAt(s, sub, i)
  }

  /** The first position of `s` at which `sub` occurs. */
  function IndexOf(s: string, sub: string): (r: Option<nat>)
    ensures r.Some? ==> OccursAt(s, sub, r.value)
    ensures r.Some? ==> forall i :: 0 <= i < r.value ==> !OccursAt(s, sub, i)
    ensures r.None? <==> !Contains(s, sub)
  {
    if |sub| > |s| then None
    else if s[..|sub|] == sub then
      assert OccursAt(s, sub, 0);
      Some(0)
    else
      var r := IndexOf(s[1..], sub);
      assert forall i :: 1 <= i ==> (OccursAt(s, sub, i) <==> OccursAt(s[1..], sub, i - 1));
      if r.None? then
        assert !OccursAt(s, sub, 0);
        None
      else
        assert OccursAt(s, sub, r.value + 1);
        Some(r.value + 1)
  }

  // ---------------------------------------------------------------- numbers

  /** The length of the run of decimal digits at the start of `s`. */
  function DigitRun(s: string): (n: nat)
    ensures n <= |s| && AllDigits(s[..n])
    ensures n < |s| ==> !IsDigit(s[n])
  {
    if |s| > 0 && IsDigit(s[0]) then
      var n := 1 + DigitRun(s[1..]);
      assert s[..n] == [s[0]] + s[1..][..n - 1];
      n
    else 0
  }

  /** The value of a string of decimal digits. */
  function DigitsValue(ds: string): nat
    requires AllDigits(ds)
  {
    if ds == [] then 0 else DigitsValue(ds[..|ds| - 1]) * 10 + DigitValue(ds[|ds| - 1])
  }

  function Pow10(n: nat): (r: nat)
    ensures r >= 1
  {
    if n == 0 then 1 else 10 * Pow10(n - 1)
  }

  /** The decimal digits of `n`, without leading zeros. */
  function NatToString(n: nat): (s: string)
    ensures |s| >= 1 && AllDigits(s)
  {
    if n < 10 then [DigitChar(n)] else NatToString(n / 10) + [DigitChar(n % 10)]
  }

  /** String(i) for an integer. */
  function IntToString(i: int): string
  {
    if i < 0 then "-" + NatToString(-i) else NatToString(i)
  }

  /** The unsigned decimal literal at the start of `t` (digits, then an
      optional point and digits); NaN when it has no digit at all. */
  function ParseUnsignedDecimal(t: string): JsNumber
  {
    var k := DigitRun(t);
    var rest := t[k..];
    if |rest| > 0 && rest[0] == '.' then
      var f := DigitRun(rest[1..]);
      if k == 0 && f == 0 then NaN
      else Fin(DigitsValue(t[..k]) as real + DigitsValue(rest[1..][..f]) as real / Pow10(f) as real)
    else if k == 0 then NaN
    else Fin(DigitsValue(t[..k]) as real)
  }

  /** parseFloat: leading white space, an optional sign, then the longest
      decimal prefix. Exponents and "Infinity" are not modelled. */
  function ParseFloat(s: string): JsNumber
  {
    var t := TrimStart(s);
    if |t| > 0 && t[0] == '-' then
      match ParseUnsignedDecimal(t[1..])
      case NaN => NaN
      case Fin(x) => Fin(-x)
    else if |t| > 0 && t[0] == '+' then ParseUnsignedDecimal(t[1..])
    else ParseUnsignedDecimal(t)
  }

  /** parseInt(s, 10): leading white space, an optional sign, then the digit prefix. */
  function ParseInt(s: string): (r: Option<int>)
    ensures s != [] && AllDigits(s) ==> r == Some(DigitsValue(s))
  {
    DigitStringFacts(s);
    var t := TrimStart(s);
    var neg := |t| > 0 && t[0] == '-';
    var u := if |t| > 0 && (t[0] == '-' || t[0] == '+') then t[1..] else t;
    var k := DigitRun(u);
    if k == 0 then None
    else if neg then Some(-(DigitsValue(u[..k]) as int))
    else Some(DigitsValue(u[..k]) as int)
  }

  /** Math.round: the nearest integer, halves rounded up. */
  function Round(x: real): (r: int)
    ensures x - 0.5 < r as real <= x + 0.5
  {
    (x + 0.5).Floor
  }

  /** The n of x.toFixed(1) = n / 10: |x| in tenths, halves away from zero. */
  function Tenths(x: real): (n: int)
    ensures x >= 0.0 ==> n >= 0
    ensures x < 0.0 ==> n <= 0
    ensures -0.5 <= n as real - x * 10.0 <= 0.5
  {
    if x < 0.0 then -((-x) * 10.0 + 0.5).Floor else (x * 10.0 + 0.5).Floor
  }

  /** Number(x.toFixed(1)). */
  function Round1(x: real): (r: real)
    ensures -0.05 <= r - x <= 0.05
  {
    Tenths(x) as real / 10.0
  }

  /** x.toFixed(1) as text: a sign when x is negative, the whole tenths, a point, one digit. */
  function Fixed1Text(x: real): (t: string)
    ensures |t| >= 3 && t[|t| - 2] == '.' && IsDigit(t[|t| - 1])
    ensures x < 0.0 <==> t[0] == '-'
  {
    var n := Tenths(x);
    var a := if n < 0 then -n else n;
    (if x < 0.0 then "-" else "") + TenthsText(a)
  }

  // ---------------------------------------------------------------- lemmas

  /** A non-empty run of digits has no white space to skip and is one digit run. */
  lemma DigitStringFacts(s: string)
    ensures s != [] && AllDigits(s) ==> TrimStart(s) == s && DigitRun(s) == |s| && s[..|s|] == s
  {
    if s != [] && AllDigits(s) {
      assert IsDigit(s[0]);
      assert !IsSpace(s[0]);
      DigitRunAll(s);
    }
  }

  /** parseFloat of a run of digits is their value. */
  lemma ParseFloatDigits(s: string)
    requires s != [] && AllDigits(s)
    ensures ParseFloat(s) == Fin(DigitsValue(s) as real)
  {
    DigitStringFacts(s);
  }

  /** The text of a count of tenths: the whole part, a point, one digit. */
  function TenthsText(a: nat): (u: string)
    ensures |u| >= 3 && u[|u| - 2] == '.' && IsDigit(u[0]) && IsDigit(u[|u| - 1])
  {
    NatToString(a / 10) + "." + NatToString(a % 10)
  }

  /** The digits of x.toFixed(1), without its sign and point. */
  function Fixed1Digits(t: string): string
    requires |t| >= 3
  {
    var body := if t[0] == '-' then t[1..] else t;
    if |body| >= 2 then body[..|body| - 2] + [body[|body| - 1]] else body
  }

  /** x.toFixed(1) spells, with its point removed, x rounded to tenths and
      taken without its sign; the sign is there exactly when x is negative. */
  lemma Fixed1TextSpellsTenths(x: real)
    ensures var t := Fixed1Text(x);
            var n := Tenths(x);
            AllDigits(Fixed1Digits(t)) && DigitsValue(Fixed1Digits(t)) == (if n < 0 then -n else n)
  {
    var n := Tenths(x);
    var a: nat := if n < 0 then -n else n;
    var t := Fixed1Text(x);
    var u := TenthsText(a);
    assert t == (if x < 0.0 then "-" else "") + u;
    assert (if t[0] == '-' then t[1..] else t) == u;
    TenthsDigits(a);
  }

  /** The digits of the text of a count of tenths spell that count. */
  lemma TenthsDigits(a: nat)
    ensures var u := TenthsText(a);
            AllDigits(u[..|u| - 2] + [u[|u| - 1]]) && DigitsValue(u[..|u| - 2] + [u[|u| - 1]]) == a
  {
    var whole := NatToString(a / 10);
    var u := TenthsText(a);
    assert u[..|u| - 2] == whole && u[|u| - 1] == DigitChar(a % 10);
    NatToStringValue(a / 10);
    DigitsValueAppend(whole, DigitChar(a % 10));
  }

  lemma {:induction false} DigitsValueAppend(ds: string, c: char)
    requires AllDigits(ds) && IsDigit(c)
    ensures AllDigits(ds + [c]) && DigitsValue(ds + [c]) == DigitsValue(ds) * 10 + DigitValue(c)
  {
    assert (ds + [c])[..|ds + [c]| - 1] == ds;
  }

  lemma {:induction false} DigitRunAll(s: string)
    requires AllDigits(s)
    ensures DigitRun(s) == |s|
  {
    if |s| > 0 { DigitRunAll(s[1..]); }
  }

  /** The digit run is exactly the first k characters when they are digits and the next is not. */
  lemma {:induction false} DigitRunExact(s: string, k: nat)
    requires k <= |s| && AllDigits(s[..k]) && (k == |s| || !IsDigit(s[k]))
    ensures DigitRun(s) == k
  {
    if k > 0 {
      assert s[1..][..k - 1] == s[1..k];
      DigitRunExact(s[1..], k - 1);
    }
  }

  /** Printing a natural number and reading it back gives the number. */
  lemma {:induction false} NatToStringValue(n: nat)
    ensures DigitsValue(NatToString(n)) == n
  {
    if n >= 10 {
      NatToStringValue(n / 10);
      DigitsValueAppend(NatToString(n / 10), DigitChar(n % 10));
    }
  }

  /** parseInt(String(n)) == n. */
  lemma ParseIntNatToString(n: nat)
    ensures ParseInt(NatToString(n)) == Some(n)
  {
    NatToStringValue(n);
  }
}
