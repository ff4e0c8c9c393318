/**
  The JavaScript string primitives the core relies on, written out over `seq<char>`:
  `String.prototype.trim`, the UTF-16 `length` of a string, `Number.prototype.toString`
  for integral values, `parseInt` without a radix, `startsWith` and `Array.prototype.join`.
 */
module Text {
  import opened Wrappers

  /** The WhiteSpace and LineTerminator code points of ECMAScript: what `trim` removes and what
      `parseInt` skips before the number. */
  predicate IsJsWhitespace(c: char) {
    var n := c as int;
    n == 0x09 || n == 0x0A || n == 0x0B || n == 0x0C || n == 0x0D || n == 0x20 || n == 0xA0
    || n == 0x1680 || (0x2000 <= n <= 0x200A) || n == 0x2028 || n == 0x2029 || n == 0x202F
    || n == 0x205F || n == 0x3000 || n == 0xFEFF
  }

  /** How many whitespace characters start `s`. */
  function LeadingSpace(s: string): (n: nat)
    ensures n <= |s|
    ensures forall k :: 0 <= k < n ==> IsJsWhitespace(s[k])
    ensures n < |s| ==> !IsJsWhitespace(s[n])
  {
    if |s| == 0 || !IsJsWhitespace(s[0]) then 0 else 1 + LeadingSpace(s[1..])
  }

  /** How many whitespace characters end `s`. */
  function TrailingSpace(s: string): (n: nat)
    ensures n <= |s|
    ensures forall k :: |s| - n <= k < |s| ==> IsJsWhitespace(s[k])
    ensures n < |s| ==> !IsJsWhitespace(s[|s| - 1 - n])
  {
    if |s| == 0 || !IsJsWhitespace(s[|s| - 1]) then 0 else 1 + TrailingSpace(s[..|s| - 1])
  }

  /** `String.prototype.trim`: the slice of `s` that keeps every non-whitespace character and
      neither starts nor ends with whitespace. */
  function Trim(s: string): (r: string)
    ensures LeadingSpace(s) + |r| <= |s| && s[LeadingSpace(s)..LeadingSpace(s) + |r|] == r
    ensures forall k :: 0 <= k < |s| && !IsJsWhitespace(s[k]) ==>
              LeadingSpace(s) <= k < LeadingSpace(s) + |r|
    ensures r == [] || (!IsJsWhitespace(r[0]) && !IsJsWhitespace(r[|r| - 1]))
  {
    var a := LeadingSpace(s);
    var t := TrailingSpace(s[a..]);
    s[a..|s| - t]
  }

  /** Trimming twice is trimming once. */
  lemma TrimIdempotent(s: string)
    ensures Trim(Trim(s)) == Trim(s)
  {
    var r := Trim(s);
    assert LeadingSpace(r) == 0;
    if r != [] {
      assert TrailingSpace(r[0..]) == 0 by { assert r[0..] == r; }
    }
  }

  /** The JavaScript `length` of a string: UTF-16 code units, two for a character outside the
      Basic Multilingual Plane. */
  function Utf16Length(s: string): (n: nat)
    ensures |s| <= n <= 2 * |s|
    ensures (forall k :: 0 <= k < |s| ==> (s[k] as int) < 0x10000) ==> n == |s|
  {
    if s == [] then 0 else (if (s[0] as int) < 0x10000 then 1 else 2) + Utf16Length(s[1..])
  }

  predicate IsDigit(c: char) { '0' <= c <= '9' }

  function DigitChar(d: nat): (c: char)
    requires d < 10
    ensures IsDigit(c) && c as int - '0' as int == d
  {
    ('0' as int + d) as char
  }

  /** Decimal digits of `n`, most significant first, without leading zeros. */
  function NatToString(n: nat): (s: string)
    ensures |s| >= 1
    ensures forall k :: 0 <= k < |s| ==> IsDigit(s[k])
    ensures s[0] == '0' ==> n == 0 && |s| == 1
  {
    if n < 10 then [DigitChar(n)] else NatToString(n / 10) + [DigitChar(n % 10)]
  }

  /** `Number.prototype.toString()` of an integral number: its decimal text, with a leading
      '-' exactly when it is negative. */
  function IntToString(n: int): (s: string)
    ensures |s| >= 1 && (s[0] == '-' <==> n < 0)
    ensures forall k :: 0 <= k < |s| ==> IsDigit(s[k]) || (k == 0 && s[k] == '-')
  {
    if n < 0 then "-" + NatToString(-n) else NatToString(n)
  }

  /** The value of character `c` as a digit of `radix` (10, or 16 after a "0x" prefix). */
  function DigitValue(c: char, radix: nat): (v: Option<nat>)
    requires radix == 10 || radix == 16
    ensures v.Some? ==> v.value < radix
    ensures radix == 10 ==> (v.Some? <==> IsDigit(c))
  {
    if '0' <= c <= '9' then Some(c as int - '0' as int)
    else if radix == 16 && 'a' <= c <= 'f' then Some(c as int - 'a' as int + 10)
    else if radix == 16 && 'A' <= c <= 'F' then Some(c as int - 'A' as int + 10)
    else None
  }

  /** Length of the longest prefix of `s` made of digits of `radix`. */
  function DigitRun(s: string, radix: nat): (n: nat)
    requires radix == 10 || radix == 16
    ensures n <= |s|
    ensures forall k :: 0 <= k < n ==> DigitValue(s[k], radix).Some?
    ensures n < |s| ==> DigitValue(s[n], radix).None?
  {
    if |s| == 0 || DigitValue(s[0], radix).None? then 0 else 1 + DigitRun(s[1..], radix)
  }

  /** The number written by the digits `s` in `radix`, most significant first. */
  function RunValue(s: string, radix: nat): nat
    requires radix == 10 || radix == 16
    requires forall k :: 0 <= k < |s| ==> DigitValue(s[k], radix).Some?
  {
    if s == [] then 0
    else RunValue(s[..|s| - 1], radix) * radix + DigitValue(s[|s| - 1], radix).value
  }

  /** `parseInt(s)` with no radix argument: skip leading whitespace, read an optional sign, a
      "0x"/"0X" prefix switches to hexadecimal, then take the longest run of digits; no digit
      at all gives NaN (None). -0 and +0 are the same integer here. */
  function ParseInt(s: string): (r: Option<int>)
    ensures (forall k :: 0 <= k < |s| ==> !IsDigit(s[k])) ==> r.None?
    ensures |s| >= 1 && IsDigit(s[0]) && (|s| == 1 || (s[1] != 'x' && s[1] != 'X')) ==>
              r.Some? && r.value >= 0
  {
    ParseSigned(s[LeadingSpace(s)..])
  }

  /** `parseInt` after the whitespace: an optional '-' or '+', then the unsigned number. */
  function ParseSigned(t: string): (r: Option<int>)
    ensures (forall k :: 0 <= k < |t| ==> !IsDigit(t[k])) ==> r.None?
    ensures r.Some? && |t| > 0 && t[0] == '-' ==> r.value <= 0
    ensures r.Some? && (|t| == 0 || t[0] != '-') ==> r.value >= 0
  {
    if |t| > 0 && t[0] == '-' then
      match ParseUnsigned(t[1..])
      case None => None
      case Some(v) => Some(-v)
    else if |t| > 0 && t[0] == '+' then ParseUnsigned(t[1..])
    else ParseUnsigned(t)
  }

  /** `parseInt` after the sign: a "0x"/"0X" prefix selects hexadecimal, then the longest run
      of digits; no digit gives NaN (None). */
  function ParseUnsigned(u: string): (r: Option<int>)
    ensures (|u| == 0 || !IsDigit(u[0])) ==> r.None?
    ensures |u| >= 1 && IsDigit(u[0]) && (|u| == 1 || (u[1] != 'x' && u[1] != 'X')) ==> r.Some?
    ensures r.Some? ==> r.value >= 0
  {
    var hex := |u| >= 2 && u[0] == '0' && (u[1] == 'x' || u[1] == 'X');
    var radix := if hex then 16 else 10;
    var digits := if hex then u[2..] else u;
    var n := DigitRun(digits, radix);
    if n == 0 then None else Some(RunValue(digits[..n], radix))
  }

  lemma {:induction false} RunValueOfNatToString(n: nat)
    ensures RunValue(NatToString(n), 10) == n
  {
    var s := NatToString(n);
    if n >= 10 {
      RunValueOfNatToString(n / 10);
      assert s[..|s| - 1] == NatToString(n / 10);
    }
  }

  /** A non-empty run of decimal digits reads back as its value. */
  lemma ParseUnsignedOfDigits(d: string)
    requires |d| >= 1 && forall k :: 0 <= k < |d| ==> IsDigit(d[k])
    ensures ParseUnsigned(d) == Some(RunValue(d, 10) as int)
  {
    assert |d| >= 2 ==> d[1] != 'x' && d[1] != 'X';
    assert DigitRun(d, 10) == |d|;
    assert d[..|d|] == d;
  }

  /** Text that starts with neither whitespace nor a sign reads as its unsigned number. */
  lemma ParseIntOfUnsigned(u: string, v: int)
    requires |u| >= 1 && !IsJsWhitespace(u[0]) && u[0] != '-' && u[0] != '+'
    requires ParseUnsigned(u) == Some(v)
    ensures ParseInt(u) == Some(v)
  {
    assert LeadingSpace(u) == 0;
    assert u[0..] == u;
  }

  /** A leading '-' negates what the rest reads as. */
  lemma ParseIntOfMinus(u: string, v: int)
    requires ParseUnsigned(u) == Some(v)
    ensures ParseInt("-" + u) == Some(-v)
  {
    var s := "-" + u;
    assert s[0] == '-';
    assert LeadingSpace(s) == 0;
    assert s[0..] == s;
    assert s[1..] == u;
  }

  /** The decimal text written for an integer reads back, through `parseInt`, as that integer. */
  lemma ParseIntOfIntToString(n: int)
    ensures ParseInt(IntToString(n)) == Some(n)
  {
    var m := if n < 0 then -n else n;
    var d := NatToString(m);
    RunValueOfNatToString(m);
    ParseUnsignedOfDigits(d);
    if n < 0 {
      ParseIntOfMinus(d, m);
    } else {
      ParseIntOfUnsigned(d, m);
    }
  }

  /** `String.prototype.startsWith`. */
  predicate StartsWith(s: string, prefix: string) {
    |prefix| <= |s| && s[..|prefix|] == prefix
  }

  /** The summed lengths of `items`. */
  function TotalLength(items: seq<string>): nat {
    if items == [] then 0 else TotalLength(items[..|items| - 1]) + |items[|items| - 1]|
  }

  /** `Array.prototype.join(sep)`: the items with `sep` between consecutive ones. */
  function Join(items: seq<string>, sep: string): (r: string)
    ensures items == [] ==> r == ""
    ensures |r| == TotalLength(items) + (if items == [] then 0 else (|items| - 1) * |sep|)
    ensures |items| >= 1 ==> StartsWith(r, items[0])
    ensures |items| >= 1 ==> r[|r| - |items[|items| - 1]|..] == items[|items| - 1]
  {
    if items == [] then ""
    else if |items| == 1 then items[0]
    else
      var init, last := items[..|items| - 1], items[|items| - 1];
      var r := Join(init, sep) + sep + last;
      assert init[0] == items[0];
      assert (|items| - 1) * |sep| == (|init| - 1) * |sep| + |sep|;
      assert r[|r| - |last|..] == last;
      r
  }
}
