/** An optional value; None stands for JavaScript's null and undefined. */
module Wrappers {
  datatype Option<+T> = None | Some(value: T)
}

/** The JavaScript string primitives the editor and the engine rely on:
    Number#toString in radix 10 and 16, parseInt without a radix,
    String#trim, Array#join and String#startsWith, stated over `string`. */
module Text {
  import opened Wrappers

  predicate StartsWith(s: string, prefix: string) {
    |prefix| <= |s| && s[..|prefix|] == prefix
  }

  // ---------------------------------------------------------------------------
  // Digits

  /** A digit of radix 10 or 16, as parseInt and the hex regex accept it
      (upper or lower case). */
  predicate IsDigitOf(c: char, radix: nat) {
    if radix == 16 then
      ('0' <= c <= '9') || ('a' <= c <= 'f') || ('A' <= c <= 'F')
    else
      '0' <= c <= '9'
  }

  predicate IsHexDigit(c: char) {
    IsDigitOf(c, 16)
  }

  function DigitValue(c: char): (d: nat)
    requires IsHexDigit(c)
    ensures d < 16
    ensures '0' <= c <= '9' ==> d < 10
  {
    if '0' <= c <= '9' then c as int - '0' as int
    else if 'a' <= c <= 'f' then c as int - 'a' as int + 10
    else c as int - 'A' as int + 10
  }

  /** The digit Number#toString writes for d: lower case letters above 9. */
  function DigitChar(d: nat): (c: char)
    requires d < 16
    ensures IsHexDigit(c) && DigitValue(c) == d
    ensures d < 10 <==> '0' <= c <= '9'
    ensures !('A' <= c <= 'F')
  {
    if d < 10 then ('0' as int + d) as char else ('a' as int + d - 10) as char
  }

  /** The value of a string of digits, most significant first. */
  function DigitsValue(s: string, radix: nat): nat
    requires radix == 10 || radix == 16
    requires forall k :: 0 <= k < |s| ==> IsDigitOf(s[k], radix)
  {
    if |s| == 0 then 0
    else
      assert IsDigitOf(s[|s| - 1], radix);
      DigitsValue(s[..|s| - 1], radix) * radix + DigitValue(s[|s| - 1])
  }

  /** Number#toString(radix) of a non-negative integer. */
  function ToRadixString(n: nat, radix: nat): (s: string)
    requires radix == 10 || radix == 16
    ensures |s| > 0
    ensures forall k :: 0 <= k < |s| ==> IsDigitOf(s[k], radix) && !('A' <= s[k] <= 'F')
  {
    if n < radix then [DigitChar(n)]
    else ToRadixString(n / radix, radix) + [DigitChar(n % radix)]
  }

  function Decimal(n: nat): string {
    ToRadixString(n, 10)
  }

  /** Reading the digits back gives the number: the printing is lossless. */
  lemma {:induction false} ToRadixStringRoundTrip(n: nat, radix: nat)
    requires radix == 10 || radix == 16
    ensures DigitsValue(ToRadixString(n, radix), radix) == n
  {
    var s := ToRadixString(n, radix);
    if n >= radix {
      ToRadixStringRoundTrip(n / radix, radix);
      assert s[..|s| - 1] == ToRadixString(n / radix, radix);
    }
  }

  lemma DecimalInjective(m: nat, n: nat)
    ensures Decimal(m) == Decimal(n) <==> m == n
  {
    ToRadixStringRoundTrip(m, 10);
    ToRadixStringRoundTrip(n, 10);
  }

  /** Two lower case hex digits of a byte value. */
  function HexPair(x: nat): string
    requires x < 256
  {
    [DigitChar(x / 16), DigitChar(x % 16)]
  }

  /** Appending one byte to a number appends its two hex digits to the
      number's hex form (for a non-zero high part). */
  lemma HexAppendByte(q: nat, x: nat)
    requires q >= 1 && x < 256
    ensures ToRadixString(q * 256 + x, 16) == ToRadixString(q, 16) + HexPair(x)
  {
    var n := q * 256 + x;
    var m := q * 16 + x / 16;
    assert n / 16 == m && n % 16 == x % 16;
    assert m / 16 == q && m % 16 == x / 16;
    assert ToRadixString(m, 16) == ToRadixString(q, 16) + [DigitChar(x / 16)];
  }

  // ---------------------------------------------------------------------------
  // parseInt without a radix argument

  /** The number of leading characters of s that are digits of the radix. */
  function DigitRun(s: string, radix: nat): (n: nat)
    ensures n <= |s|
    ensures forall k :: 0 <= k < n ==> IsDigitOf(s[k], radix)
    ensures n < |s| ==> !IsDigitOf(s[n], radix)
  {
    if |s| == 0 || !IsDigitOf(s[0], radix) then 0 else 1 + DigitRun(s[1..], radix)
  }

  /** parseInt(s): skip leading white space, read an optional sign, switch to
      radix 16 after a "0x"/"0X" prefix, and read the longest run of digits.
      None stands for NaN (no digits at all); -0 is 0. A string that starts
      with a digit other than 0 always reads as a number of at least 0, and
      only a minus sign after the white space gives a negative one. */
  function ParseInt(s: string): (r: Option<int>)
    ensures |s| > 0 && '1' <= s[0] <= '9' ==> r.Some? && r.value >= 0
    ensures r.Some? && r.value < 0 ==> LeadingSpace(s) < |s| && s[LeadingSpace(s)] == '-'
  {
    var t := s[LeadingSpace(s)..];
    var negative := |t| > 0 && t[0] == '-';
    var u := if |t| > 0 && (t[0] == '-' || t[0] == '+') then t[1..] else t;
    var hex := |u| >= 2 && u[0] == '0' && (u[1] == 'x' || u[1] == 'X');
    var radix := if hex then 16 else 10;
    var v := if hex then u[2..] else u;
    var n := DigitRun(v, radix);
    if n == 0 then None
    else
      var m: int := DigitsValue(v[..n], radix);
      Some(if negative then -m else m)
  }

  /** parseInt reads back what Number#toString wrote. */
  lemma ParseIntDecimal(n: nat)
    ensures ParseInt(Decimal(n)) == Some(n)
  {
    var s := Decimal(n);
    ParseIntOfDigits(s);
    ToRadixStringRoundTrip(n, 10);
  }

  /** A plain run of decimal digits is read as its value. */
  lemma {:induction false} ParseIntOfDigits(s: string)
    requires |s| > 0
    requires forall k :: 0 <= k < |s| ==> '0' <= s[k] <= '9'
    ensures ParseInt(s) == Some(DigitsValue(s, 10))
  {
    assert !IsWhitespace(s[0]);
    assert LeadingSpace(s) == 0;
    assert s[0..] == s;
    assert s[0] != '-' && s[0] != '+';
    assert |s| >= 2 ==> s[1] != 'x' && s[1] != 'X';
    DigitRunAll(s, 10);
    assert s[..|s|] == s;
  }

  lemma {:induction false} DigitRunAll(s: string, radix: nat)
    requires forall k :: 0 <= k < |s| ==> IsDigitOf(s[k], radix)
    ensures DigitRun(s, radix) == |s|
  {
    if |s| > 0 {
      DigitRunAll(s[1..], radix);
    }
  }

  // ---------------------------------------------------------------------------
  // String#trim

  /** ECMAScript WhiteSpace and LineTerminator code points (the set that
      String#trim and parseInt skip). */
  predicate IsWhitespace(c: char) {
    c == '\t' || c == '\n' || c == '\U{000B}' || c == '\U{000C}' || c == '\r' ||
    c == ' ' || c == '\U{00A0}' || c == '\U{1680}' || ('\U{2000}' <= c <= '\U{200A}') ||
    c == '\U{2028}' || c == '\U{2029}' || c == '\U{202F}' || c == '\U{205F}' ||
    c == '\U{3000}' || c == '\U{FEFF}'
  }

  /** The length of the leading run of white space. */
  function LeadingSpace(s: string): (n: nat)
    ensures n <= |s|
    ensures forall k :: 0 <= k < n ==> IsWhitespace(s[k])
    ensures n < |s| ==> !IsWhitespace(s[n])
  {
    if |s| == 0 || !IsWhitespace(s[0]) then 0 else 1 + LeadingSpace(s[1..])
  }

  /** The length of the trailing run of white space. */
  function TrailingSpace(s: string): (n: nat)
    ensures n <= |s|
    ensures forall k :: |s| - n <= k < |s| ==> IsWhitespace(s[k])
    ensures n < |s| ==> !IsWhitespace(s[|s| - 1 - n])
  {
    if |s| == 0 || !IsWhitespace(s[|s| - 1]) then 0 else 1 + TrailingSpace(s[..|s| - 1])
  }

  /** String#trim: the slice of s between its leading and trailing white
      space; its ends are not white space and only white space was cut. */
  function Trim(s: string): (r: string)
    ensures |r| <= |s|
    ensures r != [] ==> !IsWhitespace(r[0]) && !IsWhitespace(r[|r| - 1])
    ensures r == [] <==> forall k :: 0 <= k < |s| ==> IsWhitespace(s[k])
    ensures r != [] ==> LeadingSpace(s) + |r| <= |s| && r == s[LeadingSpace(s)..LeadingSpace(s) + |r|]
    ensures forall k :: LeadingSpace(s) + |r| <= k < |s| ==> IsWhitespace(s[k])
  {
    var a := LeadingSpace(s);
    if a == |s| then ""
    else
      var b := TrailingSpace(s);
      var r := s[a..|s| - b];
      assert s[a..a + |r|] == r;
      r
  }

  // ---------------------------------------------------------------------------
  // Array#join

  function Join(parts: seq<string>, sep: char): string {
    if |parts| == 0 then ""
    else if |parts| == 1 then parts[0]
    else parts[0] + [sep] + Join(parts[1..], sep)
  }

  predicate SeparatorFree(part: string, sep: char) {
    forall k :: 0 <= k < |part| ==> part[k] != sep
  }

  /** Joining non-empty parts that do not contain the separator loses
      nothing: the parts can be told apart again. */
  lemma {:induction false} JoinInjective(xs: seq<string>, ys: seq<string>, sep: char)
    requires forall i :: 0 <= i < |xs| ==> |xs[i]| > 0 && SeparatorFree(xs[i], sep)
    requires forall i :: 0 <= i < |ys| ==> |ys[i]| > 0 && SeparatorFree(ys[i], sep)
    requires Join(xs, sep) == Join(ys, sep)
    ensures xs == ys
  {
    if |xs| == 0 || |ys| == 0 {
      if |xs| != |ys| {
        if |xs| == 0 { JoinStartsWithFirst(ys, sep); } else { JoinStartsWithFirst(xs, sep); }
      }
    } else {
      assert SeparatorFree(xs[0], sep) && SeparatorFree(ys[0], sep);
      FirstFieldUnique(xs[0], JoinRest(xs, sep), ys[0], JoinRest(ys, sep), sep);
      if |xs| > 1 && |ys| > 1 {
        JoinInjective(xs[1..], ys[1..], sep);
        assert xs == [xs[0]] + xs[1..];
        assert ys == [ys[0]] + ys[1..];
      }
    }
  }

  /** What follows the first part in a join: nothing, or the separator and
      the join of the other parts. */
  function JoinRest(xs: seq<string>, sep: char): (r: string)
    requires |xs| > 0
    ensures Join(xs, sep) == xs[0] + r
    ensures r == [] || r[0] == sep
    ensures |xs| > 1 ==> r[1..] == Join(xs[1..], sep)
    ensures |xs| == 1 <==> r == []
  {
    if |xs| == 1 then "" else [sep] + Join(xs[1..], sep)
  }

  lemma JoinStartsWithFirst(xs: seq<string>, sep: char)
    requires |xs| > 0
    ensures |Join(xs, sep)| >= |xs[0]|
  {
  }

  /** In a + ra == b + rb with separator-free a and b and rests that are empty
      or start with the separator, the first fields agree and so do the rests. */
  lemma FirstFieldUnique(a: string, ra: string, b: string, rb: string, sep: char)
    requires SeparatorFree(a, sep) && SeparatorFree(b, sep)
    requires ra == [] || ra[0] == sep
    requires rb == [] || rb[0] == sep
    requires a + ra == b + rb
    ensures a == b && ra == rb
  {
    FieldLengthOf(a, ra, sep);
    FieldLengthOf(b, rb, sep);
    calc {
      a;
      (a + ra)[..|a|];
      (b + rb)[..|b|];
      b;
    }
    calc {
      ra;
      (a + ra)[|a|..];
      (b + rb)[|b|..];
      rb;
    }
  }

  /** The length of the first field of s: the characters before the first
      separator. */
  function FieldLength(s: string, sep: char): nat {
    if |s| == 0 || s[0] == sep then 0 else 1 + FieldLength(s[1..], sep)
  }

  lemma {:induction false} FieldLengthOf(a: string, r: string, sep: char)
    requires SeparatorFree(a, sep)
    requires r == [] || r[0] == sep
    ensures FieldLength(a + r, sep) == |a|
  {
    if |a| == 0 {
      assert a + r == r;
    } else {
      assert (a + r)[1..] == a[1..] + r;
      FieldLengthOf(a[1..], r, sep);
    }
  }
}
