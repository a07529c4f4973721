/**
 * String helpers with the semantics of the JavaScript built-ins the core
 * relies on: `String(n)` for integers, `parseInt`, `split` on a one-character
 * separator, `includes` and `repeat`.
 */
module Text {
  import opened Wrappers

  predicate IsDigit(c: char) {
    '0' <= c <= '9'
  }

  predicate AllDigits(s: string) {
    forall i | 0 <= i < |s| :: IsDigit(s[i])
  }

  function DigitChar(d: nat): (c: char)
    requires d < 10
    ensures IsDigit(c)
  {
    "0123456789"[d]
  }

  /** The value of a digit in base 10 or base 16, or -1 when `c` is no digit of that base. */
  function DigitValue(c: char, base: nat): (v: int)
    requires base == 10 || base == 16
    ensures -1 <= v < base
  {
    if '0' <= c <= '9' then (c as int) - ('0' as int)
    else if base == 16 && 'a' <= c <= 'f' then (c as int) - ('a' as int) + 10
    else if base == 16 && 'A' <= c <= 'F' then (c as int) - ('A' as int) + 10
    else -1
  }

  lemma DigitCharValue(d: nat)
    requires d < 10
    ensures DigitValue(DigitChar(d), 10) == d
  {
  }

  /** Decimal representation without leading zeros, as `String(n)` prints a non-negative integer. */
  function NatToString(n: nat): (s: string)
    ensures s != [] && AllDigits(s)
    decreases n
  {
    if n < 10 then [DigitChar(n)] else NatToString(n / 10) + [DigitChar(n % 10)]
  }

  /** `String(n)` for an integer `n`. */
  function IntToString(n: int): (s: string)
    ensures s != []
  {
    if n < 0 then "-" + NatToString(-n) else NatToString(n)
  }

  // ---------------------------------------------------------------------------
  // parseInt (ECMAScript Number.parseInt): skip leading white space, read an
  // optional sign, then the longest run of digits of the radix; no digit at all
  // gives NaN (None here).

  /** `Ten` is an explicit radix 10; `Unspecified` also accepts a `0x`/`0X` hexadecimal prefix. */
  datatype Radix = Ten | Unspecified

  /** The white space and line terminators that `parseInt` skips. */
  predicate IsJsSpace(c: char) {
    c == ' ' || c == '\t' || c == '\n' || c == '\r' || c == '\U{000B}' || c == '\U{000C}'
    || c == '\U{00A0}' || c == '\U{1680}' || ('\U{2000}' <= c <= '\U{200A}')
    || c == '\U{2028}' || c == '\U{2029}' || c == '\U{202F}' || c == '\U{205F}'
    || c == '\U{3000}' || c == '\U{FEFF}'
  }

  function TrimStart(s: string): (t: string)
    ensures |t| <= |s| && t == s[|s| - |t|..]
    ensures t == [] || !IsJsSpace(t[0])
  {
    if s != [] && IsJsSpace(s[0]) then TrimStart(s[1..]) else s
  }

  /** The longest prefix of `s` made of digits of `base`. */
  function DigitRun(s: string, base: nat): (d: string)
    requires base == 10 || base == 16
    ensures |d| <= |s| && d == s[..|d|]
    ensures forall i | 0 <= i < |d| :: DigitValue(d[i], base) >= 0
    ensures |d| < |s| ==> DigitValue(s[|d|], base) < 0
  {
    if s != [] && DigitValue(s[0], base) >= 0 then [s[0]] + DigitRun(s[1..], base) else []
  }

  /** The value of a string of digits of `base`, most significant first. */
  function DigitsValue(d: string, base: nat): nat
    requires base == 10 || base == 16
    requires forall i | 0 <= i < |d| :: DigitValue(d[i], base) >= 0
  {
    if d == [] then 0
    else if base == 16 then DigitsValue(d[..|d| - 1], base) * 16 + DigitValue(d[|d| - 1], base)
    else DigitsValue(d[..|d| - 1], base) * 10 + DigitValue(d[|d| - 1], base)
  }

  function ParseUnsigned(s: string, radix: Radix): Option<nat> {
    var hex := radix == Unspecified && |s| >= 2 && s[0] == '0' && (s[1] == 'x' || s[1] == 'X');
    var base := if hex then 16 else 10;
    var body := if hex then s[2..] else s;
    var d := DigitRun(body, base);
    if d == [] then None else Some(DigitsValue(d, base))
  }

  /** The digits after an optional sign. */
  function Unsigned(t: string): (u: string)
    ensures |u| <= |t| && u == t[|t| - |u|..]
  {
    if t != [] && (t[0] == '-' || t[0] == '+') then t[1..] else t
  }

  /** `parseInt` on text that starts after the leading white space. */
  function ParseSigned(t: string, radix: Radix): Option<int> {
    match ParseUnsigned(Unsigned(t), radix)
    case None => None
    case Some(n) => var v: int := if t != [] && t[0] == '-' then -(n as int) else n; Some(v)
  }

  /** `parseInt(s, 10)` (radix `Ten`) or `parseInt(s)` (radix `Unspecified`); None is NaN. */
  function ParseInt(s: string, radix: Radix): Option<int> {
    ParseSigned(TrimStart(s), radix)
  }

  lemma {:induction false} DigitRunOfDigits(s: string)
    requires AllDigits(s)
    ensures DigitRun(s, 10) == s
    decreases |s|
  {
    if s != [] {
      DigitRunOfDigits(s[1..]);
    }
  }

  lemma {:induction false} NatToStringValue(n: nat)
    ensures DigitsValue(NatToString(n), 10) == n
    decreases n
  {
    var s := NatToString(n);
    if n >= 10 {
      assert s[..|s| - 1] == NatToString(n / 10);
      NatToStringValue(n / 10);
      DigitCharValue(n % 10);
    } else {
      DigitCharValue(n);
    }
  }

  lemma ParseUnsignedOfNatToString(m: nat, radix: Radix)
    ensures ParseUnsigned(NatToString(m), radix) == Some(m)
  {
    var digits := NatToString(m);
    DigitRunOfDigits(digits);
    NatToStringValue(m);
    assert |digits| >= 2 ==> IsDigit(digits[1]);
  }

  lemma DigitIsNoSpace(c: char)
    requires IsDigit(c)
    ensures !IsJsSpace(c)
  {
  }

  lemma TrimStartOfNoSpace(s: string)
    requires s != [] && !IsJsSpace(s[0])
    ensures TrimStart(s) == s
  {
  }

  lemma ParseIntOfDigits(d: string, v: nat, radix: Radix)
    requires d != [] && IsDigit(d[0]) && ParseUnsigned(d, radix) == Some(v)
    ensures ParseInt(d, radix) == Some(v)
  {
    DigitIsNoSpace(d[0]);
    TrimStartOfNoSpace(d);
    assert Unsigned(d) == d;
  }

  lemma ParseIntOfNegatedDigits(d: string, v: nat, radix: Radix)
    requires d != [] && ParseUnsigned(d, radix) == Some(v)
    ensures ParseInt("-" + d, radix) == Some(-(v as int))
  {
    var s := "-" + d;
    TrimStartOfNoSpace(s);
    assert Unsigned(s) == d;
  }

  lemma ParseIntOfNatToString(m: nat, radix: Radix)
    ensures ParseInt(NatToString(m), radix) == Some(m)
  {
    var d := NatToString(m);
    ParseUnsignedOfNatToString(m, radix);
    assert IsDigit(d[0]);
    ParseIntOfDigits(d, m, radix);
  }

  lemma ParseIntOfNegatedNatToString(m: nat, radix: Radix)
    ensures ParseInt("-" + NatToString(m), radix) == Some(-(m as int))
  {
    ParseUnsignedOfNatToString(m, radix);
    ParseIntOfNegatedDigits(NatToString(m), m, radix);
  }

  /** `parseInt(String(n), 10)` and `parseInt(String(n))` give back `n` for every integer `n`. */
  lemma ParseIntOfIntToString(n: int, radix: Radix)
    ensures ParseInt(IntToString(n), radix) == Some(n)
  {
    var s := IntToString(n);
    if n < 0 {
      var m: nat := -n;
      assert s == "-" + NatToString(m);
      ParseIntOfNegatedNatToString(m, radix);
    } else {
      assert s == NatToString(n);
      ParseIntOfNatToString(n, radix);
    }
  }

  /** A string that starts with neither white space, a sign nor a digit parses to NaN. */
  lemma ParseIntOfNonNumeric(s: string, radix: Radix)
    requires s != [] && !IsJsSpace(s[0]) && !IsDigit(s[0]) && s[0] != '-' && s[0] != '+'
    ensures ParseInt(s, radix) == None
  {
    assert TrimStart(s) == s;
    assert DigitValue(s[0], 10) < 0;
  }

  // ---------------------------------------------------------------------------
  // String.prototype.split with a one-character separator, and its inverse.

  function Count(s: string, c: char): nat {
    if s == [] then 0 else (if s[0] == c then 1 else 0) + Count(s[1..], c)
  }

  /** `s.split(sep)`: the pieces between occurrences of `sep`; one more piece than separators. */
  function Split(s: string, sep: char): (parts: seq<string>)
    ensures |parts| == Count(s, sep) + 1
    ensures forall i | 0 <= i < |parts| :: sep !in parts[i]
    decreases |s|
  {
    if s == [] then [""]
    else
      var rest := Split(s[1..], sep);
      if s[0] == sep then [""] + rest else [[s[0]] + rest[0]] + rest[1..]
  }

  /** `parts.join(sep)`. */
  function Join(parts: seq<string>, sep: char): string
    requires |parts| >= 1
  {
    if |parts| == 1 then parts[0] else parts[0] + [sep] + Join(parts[1..], sep)
  }

  /** Joining the pieces of a split gives back the string. */
  lemma {:induction false} JoinSplit(s: string, sep: char)
    ensures Join(Split(s, sep), sep) == s
    decreases |s|
  {
    if s != [] {
      JoinSplit(s[1..], sep);
      var rest := Split(s[1..], sep);
      if s[0] != sep && |rest| > 1 {
        assert Join(rest, sep) == rest[0] + [sep] + Join(rest[1..], sep);
      }
    }
  }

  /** Splitting a join of separator-free pieces gives back the pieces. */
  lemma {:induction false} SplitJoin(parts: seq<string>, sep: char)
    requires |parts| >= 1
    requires forall i | 0 <= i < |parts| :: sep !in parts[i]
    ensures Split(Join(parts, sep), sep) == parts
    decreases |parts|, |parts[0]|
  {
    var p := parts[0];
    if p != [] {
      var tail := [p[1..]] + parts[1..];
      assert sep !in tail[0];
      assert forall i | 1 <= i < |tail| :: tail[i] == parts[i];
      SplitJoin(tail, sep);
      if |parts| == 1 {
        assert Join(parts, sep) == [p[0]] + Join(tail, sep);
      } else {
        assert Join(tail, sep) == p[1..] + [sep] + Join(parts[1..], sep);
        assert Join(parts, sep) == [p[0]] + Join(tail, sep);
      }
      assert p[0] != sep;
      assert [p[0]] + p[1..] == p;
    } else if |parts| > 1 {
      SplitJoin(parts[1..], sep);
      assert Join(parts, sep) == [sep] + Join(parts[1..], sep);
    }
  }

  // ---------------------------------------------------------------------------

  /** `s.includes(sub)`. */
  predicate Includes(s: string, sub: string)
    decreases |s|
  {
    (|sub| <= |s| && s[..|sub|] == sub) || (s != [] && Includes(s[1..], sub))
  }

  /** `c.repeat(n)`. */
  function Repeat(c: char, n: nat): (r: string)
    ensures |r| == n && forall i | 0 <= i < n :: r[i] == c
  {
    seq(n, _ => c)
  }

  /** `s.replace(/from/g, to)` for a single character `from`. */
  function ReplaceAll(s: string, from: char, to: char): (r: string)
    ensures |r| == |s|
    ensures forall i | 0 <= i < |s| :: r[i] == (if s[i] == from then to else s[i])
  {
    seq(|s|, i requires 0 <= i < |s| => if s[i] == from then to else s[i])
  }
}
