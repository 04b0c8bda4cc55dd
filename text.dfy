/** JavaScript string and number helpers used by the components: decimal
    rendering (`toString`), `padStart`, `toLowerCase`, `includes`, `replace`,
    `split`, `parseInt` and `Number` on digit strings. */
module Text {

  datatype Option<T> = None | Some(value: T)

  /** `Math.min` and `Math.max` on integers. */
  function Min(a: int, b: int): int { if a <= b then a else b }

  function Max(a: int, b: int): int { if a >= b then a else b }

  predicate IsDigit(c: char) { '0' <= c <= '9' }

  /** The regular expression `^\d*$`: every character is a decimal digit. */
  predicate IsDigits(s: string) { forall i :: 0 <= i < |s| ==> IsDigit(s[i]) }

  function DigitChar(d: nat): (c: char)
    requires d < 10
    ensures IsDigit(c) && (c as int) - ('0' as int) == d
  {
    (('0' as int) + d) as char
  }

  /** The value of a string of decimal digits (the empty string is 0). */
  function DecimalValue(s: string): nat
    requires IsDigits(s)
  {
    if s == [] then 0
    else DecimalValue(s[..|s| - 1]) * 10 + ((s[|s| - 1] as int) - ('0' as int))
  }

  /** `n.toString()` for a non-negative integer: canonical decimal digits. */
  function NatToString(n: nat): (s: string)
    ensures |s| >= 1 && IsDigits(s)
    ensures |s| > 1 ==> s[0] != '0'
    ensures n < 10 <==> |s| == 1
    decreases n
  {
    if n < 10 then [DigitChar(n)] else NatToString(n / 10) + [DigitChar(n % 10)]
  }

  lemma {:induction false} NatToStringRoundTrip(n: nat)
    ensures DecimalValue(NatToString(n)) == n
    decreases n
  {
    if n >= 10 {
      NatToStringRoundTrip(n / 10);
      var s := NatToString(n);
      assert s[..|s| - 1] == NatToString(n / 10);
    }
  }

  /** Leading zeros do not change the value of a digit string. */
  lemma {:induction false} DecimalValueLeadingZeros(z: string, s: string)
    requires forall i :: 0 <= i < |z| ==> z[i] == '0'
    requires IsDigits(s)
    ensures IsDigits(z + s) && DecimalValue(z + s) == DecimalValue(s)
    decreases |s|
  {
    if s == [] {
      assert z + s == z;
      AllZerosValue(z);
    } else {
      var t := s[..|s| - 1];
      assert (z + s)[..|z + s| - 1] == z + t;
      DecimalValueLeadingZeros(z, t);
    }
  }

  lemma {:induction false} AllZerosValue(z: string)
    requires forall i :: 0 <= i < |z| ==> z[i] == '0'
    ensures IsDigits(z) && DecimalValue(z) == 0
    decreases |z|
  {
    if z != [] {
      AllZerosValue(z[..|z| - 1]);
    }
  }

  /** `i.toString()` for any integer: a minus sign before the digits of `|i|`. */
  function IntToString(i: int): (s: string)
    ensures |s| >= 1
    ensures i >= 0 ==> s == NatToString(i)
    ensures i < 0 ==> s == "-" + NatToString(-i)
  {
    if i < 0 then "-" + NatToString(-i) else NatToString(i)
  }

  function Repeat(c: char, n: nat): (r: string)
    ensures |r| == n && forall i :: 0 <= i < n ==> r[i] == c
  {
    if n == 0 then [] else [c] + Repeat(c, n - 1)
  }

  /** `s.padStart(width, c)` with a one-character pad string. */
  function PadStart(s: string, width: nat, c: char): (r: string)
    ensures |r| == if |s| >= width then |s| else width
    ensures r[|r| - |s|..] == s
    ensures forall i :: 0 <= i < |r| - |s| ==> r[i] == c
  {
    if |s| >= width then s else Repeat(c, width - |s|) + s
  }

  function LowerChar(c: char): (r: char)
    ensures 'A' <= c <= 'Z' ==> 'a' <= r <= 'z'
    ensures !('A' <= c <= 'Z') ==> r == c
  {
    if 'A' <= c <= 'Z' then ((c as int) - ('A' as int) + ('a' as int)) as char else c
  }

  /** `s.toLowerCase()`, on the ASCII letters. */
  function ToLower(s: string): (r: string)
    ensures |r| == |s| && forall i :: 0 <= i < |s| ==> r[i] == LowerChar(s[i])
  {
    if s == [] then [] else [LowerChar(s[0])] + ToLower(s[1..])
  }

  /** `s.includes(sub)`: `sub` occurs in `s` at some position. */
  predicate Includes(s: string, sub: string)
  {
    exists i :: 0 <= i <= |s| - |sub| && OccursAt(s, sub, i)
  }

  predicate OccursAt(s: string, sub: string, i: int)
  {
    0 <= i <= |s| - |sub| && s[i..i + |sub|] == sub
  }

  /** `s.replace(/x/g, y)` for a single-character pattern `x`. */
  function ReplaceAll(s: string, x: char, y: char): (r: string)
    ensures |r| == |s|
    ensures forall i :: 0 <= i < |s| ==> r[i] == if s[i] == x then y else s[i]
    ensures x != y ==> x !in r
  {
    if s == [] then [] else [if s[0] == x then y else s[0]] + ReplaceAll(s[1..], x, y)
  }

  /** `s.indexOf(x)` (and `findIndex` by equality) for an element that
      occurs in `s`: the first place it occurs. */
  function IndexOf<T(==)>(s: seq<T>, x: T): (k: nat)
    requires x in s
    ensures k < |s| && s[k] == x && x !in s[..k]
  {
    if s[0] == x then 0
    else
      assert x in s[1..];
      var k := IndexOf(s[1..], x);
      assert s[..k + 1] == [s[0]] + s[1..][..k];
      k + 1
  }

  /** `s.replace(x, y)` with a string pattern: only the first occurrence. */
  function ReplaceFirst(s: string, x: char, y: char): (r: string)
    ensures |r| == |s|
    ensures x !in s ==> r == s
    ensures x in s ==> r == s[..IndexOf(s, x)] + [y] + s[IndexOf(s, x) + 1..]
  {
    if x in s then
      var k := IndexOf(s, x);
      s[..k] + [y] + s[k + 1..]
    else s
  }

  /** `s.split(sep)` for a one-character separator, built from the end:
      the pieces between separators, empty ones included. */
  function Split(s: string, sep: char): (parts: seq<string>)
    ensures |parts| >= 1
    ensures forall i :: 0 <= i < |parts| ==> sep !in parts[i]
    decreases |s|
  {
    if s == [] then [""]
    else
      var init := Split(s[..|s| - 1], sep);
      var last := s[|s| - 1];
      if last == sep then init + [""]
      else init[..|init| - 1] + [init[|init| - 1] + [last]]
  }

  /** `parts.join(sep)`. */
  function Join(parts: seq<string>, sep: char): string
    requires |parts| >= 1
  {
    if |parts| == 1 then parts[0]
    else Join(parts[..|parts| - 1], sep) + [sep] + parts[|parts| - 1]
  }

  /** Splitting and joining again gives back the string. */
  lemma {:induction false} SplitJoin(s: string, sep: char)
    ensures Join(Split(s, sep), sep) == s
    decreases |s|
  {
    if s != [] {
      var u := s[..|s| - 1];
      var last := s[|s| - 1];
      var init := Split(u, sep);
      SplitJoin(u, sep);
      assert s == u + [last];
      if last == sep {
        assert Split(s, sep) == init + [""];
        JoinAppendEmpty(init, sep);
      } else {
        assert Split(s, sep) == init[..|init| - 1] + [init[|init| - 1] + [last]];
        JoinLastGrows(init, sep, last);
      }
    }
  }

  lemma JoinAppendEmpty(init: seq<string>, sep: char)
    requires |init| >= 1
    ensures Join(init + [""], sep) == Join(init, sep) + [sep]
  {
    var p := init + [""];
    assert p[..|p| - 1] == init;
  }

  lemma JoinLastGrows(init: seq<string>, sep: char, c: char)
    requires |init| >= 1
    ensures Join(init[..|init| - 1] + [init[|init| - 1] + [c]], sep) == Join(init, sep) + [c]
  {
    var p := init[..|init| - 1] + [init[|init| - 1] + [c]];
    if |init| >= 2 {
      assert p[..|p| - 1] == init[..|init| - 1];
    }
  }

  /** The longest suffix of `s` that holds no `sep`. */
  function TrailingPiece(s: string, sep: char): (t: string)
    ensures sep !in t && |t| <= |s| && t == s[|s| - |t|..]
    ensures |t| < |s| ==> s[|s| - |t| - 1] == sep
    decreases |s|
  {
    if s == [] || s[|s| - 1] == sep then []
    else TrailingPiece(s[..|s| - 1], sep) + [s[|s| - 1]]
  }

  lemma {:induction false} SplitLastIsTrailingPiece(s: string, sep: char)
    ensures Split(s, sep)[|Split(s, sep)| - 1] == TrailingPiece(s, sep)
    decreases |s|
  {
    if s != [] && s[|s| - 1] != sep {
      SplitLastIsTrailingPiece(s[..|s| - 1], sep);
    }
  }

  /** The characters that JavaScript's `parseInt` skips before a number
      (the ASCII white space characters). */
  predicate IsSpace(c: char)
  {
    c == ' ' || c == '\t' || c == '\n' || c == '\r' || c == '\U{000B}' || c == '\U{000C}'
  }

  /** The longest prefix of `s` made of decimal digits. */
  function LeadingDigits(s: string): (d: string)
    ensures IsDigits(d) && d <= s
    ensures |d| < |s| ==> !IsDigit(s[|d|])
  {
    if s == [] || !IsDigit(s[0]) then [] else [s[0]] + LeadingDigits(s[1..])
  }

  lemma {:induction false} LeadingDigitsOfDigits(d: string, rest: string)
    requires IsDigits(d)
    requires rest == [] || !IsDigit(rest[0])
    ensures LeadingDigits(d + rest) == d
    decreases |d|
  {
    if d != [] {
      assert (d + rest)[1..] == d[1..] + rest;
      LeadingDigitsOfDigits(d[1..], rest);
    } else {
      assert d + rest == rest;
    }
  }

  /** `s` without its leading white space. */
  function SkipSpaces(s: string): (r: string)
    ensures |r| <= |s| && r == s[|s| - |r|..]
    ensures forall i :: 0 <= i < |s| - |r| ==> IsSpace(s[i])
    ensures r != [] ==> !IsSpace(r[0])
  {
    if s != [] && IsSpace(s[0]) then SkipSpaces(s[1..]) else s
  }

  /** `parseInt(s, 10)`: after leading white space, an optional sign and
      the longest run of digits; NaN (`None`) when there are no digits. */
  function ParseInt(s: string): (r: Option<int>)
    ensures var t := SkipSpaces(s);
      var u := AfterSign(t);
      (r.None? <==> u == [] || !IsDigit(u[0])) &&
      (r.Some? ==> r.value == if t[0] == '-' then -(DecimalValue(LeadingDigits(u)) as int) else DecimalValue(LeadingDigits(u)))
  {
    ParseSigned(SkipSpaces(s))
  }

  /** `t` without a leading `-` or `+`. */
  function AfterSign(t: string): string
  {
    if t != [] && (t[0] == '-' || t[0] == '+') then t[1..] else t
  }

  /** An optional sign, then the digit run. */
  function ParseSigned(t: string): Option<int>
  {
    if t != [] && t[0] == '-' then
      match ParseUnsigned(t[1..])
      case None => None
      case Some(v) => Some(-v)
    else if t != [] && t[0] == '+' then ParseUnsigned(t[1..])
    else ParseUnsigned(t)
  }

  /** The value of the leading digit run; NaN when there is none. */
  function ParseUnsigned(u: string): Option<int>
  {
    var d := LeadingDigits(u);
    if d == [] then None else Some(DecimalValue(d))
  }

  lemma UnsignedOfNat(n: nat)
    ensures ParseUnsigned(NatToString(n)) == Some(n)
  {
    var d := NatToString(n);
    LeadingDigitsOfDigits(d, []);
    assert d + [] == d;
    NatToStringRoundTrip(n);
  }

  /** Rendering an integer and parsing it back gives the integer. */
  lemma ParseIntRoundTrip(i: int)
    ensures ParseInt(IntToString(i)) == Some(i)
  {
    var t := IntToString(i);
    if i < 0 {
      assert t[1..] == NatToString(-i);
      UnsignedOfNat(-i);
    } else {
      assert IsDigit(t[0]);
      UnsignedOfNat(i);
    }
    UnspacedParse(t);
  }

  lemma UnspacedParse(t: string)
    requires t != [] && !IsSpace(t[0])
    ensures ParseInt(t) == ParseSigned(t)
  {
    assert SkipSpaces(t) == t;
  }

  /** `Number(s)` on what a digit-only text field can hold: the empty
      string is 0, a digit string is its decimal value, and anything else
      is treated as NaN (`None`). */
  function NumberOf(s: string): (r: Option<int>)
    ensures IsDigits(s) <==> r.Some?
    ensures IsDigits(s) ==> r.value >= 0
    ensures s == "" ==> r == Some(0)
  {
    if IsDigits(s) then Some(DecimalValue(s)) else None
  }

  /** Rendering a non-negative integer and reading it with `Number` gives it back. */
  lemma NumberOfRoundTrip(n: nat)
    ensures NumberOf(NatToString(n)) == Some(n)
  {
    NatToStringRoundTrip(n);
  }
}
