/**
  Base64url encoding as `base64URLEncode` computes it: the bytes become a binary string, `btoa`
  encodes that string with the base64 alphabet of RFC 4648 section 4 and '=' padding, and three
  global replacements turn '+' into '-', '/' into '_' and drop every '='.  The result is proved
  equal to the unpadded base64url encoding of RFC 4648 section 5 defined directly, which a
  decoder inverts.
 */
module Base64Url {
  import opened Wrappers

  type byte = x: int | 0 <= x < 256
  type sextet = x: int | 0 <= x < 64

  /** Character of value `v` in the base64 alphabet (RFC 4648 section 4, Table 1). */
  function StdChar(v: sextet): char {
    if v < 26 then ('A' as int + v) as char
    else if v < 52 then ('a' as int + (v - 26)) as char
    else if v < 62 then ('0' as int + (v - 52)) as char
    else if v == 62 then '+'
    else '/'
  }

  /** Character of value `v` in the URL- and filename-safe alphabet (RFC 4648 section 5,
      Table 2): the same as Table 1 except for the last two values. */
  function UrlChar(v: sextet): char {
    if v == 62 then '-' else if v == 63 then '_' else StdChar(v)
  }

  /** `[A-Za-z0-9_-]`. */
  predicate IsUrlSafe(c: char) {
    ('A' <= c <= 'Z') || ('a' <= c <= 'z') || ('0' <= c <= '9') || c == '-' || c == '_'
  }

  /** The 6-bit groups RFC 4648 section 4 cuts the bytes into: four for each full 24-bit group,
      then two or three for a final group of one or two bytes, padded with zero bits. */
  function Sextets(b: seq<byte>): (r: seq<sextet>)
    ensures |r| == (4 * |b| + 2) / 3
  {
    if |b| == 0 then []
    else if |b| == 1 then [b[0] / 4, (b[0] % 4) * 16]
    else if |b| == 2 then [b[0] / 4, (b[0] % 4) * 16 + b[1] / 16, (b[1] % 16) * 4]
    else [b[0] / 4, (b[0] % 4) * 16 + b[1] / 16, (b[1] % 16) * 4 + b[2] / 64, b[2] % 64]
         + Sextets(b[3..])
  }

  function MapChars(f: sextet -> char, v: seq<sextet>): string {
    seq(|v|, i requires 0 <= i < |v| => f(v[i]))
  }

  /** Number of '=' characters that pad the encoding of `n` bytes to a multiple of four. */
  function PadCount(n: nat): nat {
    if n % 3 == 0 then 0 else 3 - n % 3
  }

  /** The unpadded characters and the padding make up four characters per started group. */
  lemma PaddedLength(n: nat)
    ensures (4 * n + 2) / 3 + PadCount(n) == 4 * ((n + 2) / 3)
  {
    var q := n / 3;
    assert n == 3 * q + n % 3;
    if n % 3 == 0 {
      assert 4 * n + 2 == 3 * (4 * q) + 2;
      assert n + 2 == 3 * q + 2;
    } else if n % 3 == 1 {
      assert 4 * n + 2 == 3 * (4 * q + 2);
      assert n + 2 == 3 * (q + 1);
    } else {
      assert 4 * n + 2 == 3 * (4 * q + 3) + 1;
      assert n + 2 == 3 * (q + 1) + 1;
    }
  }

  /** What `btoa` produces for the binary string of `b`: base64 with '=' padding. */
  function StdEncode(b: seq<byte>): (r: string)
    ensures |r| % 4 == 0
    ensures |r| == 4 * ((|b| + 2) / 3)
  {
    PaddedLength(|b|);
    MapChars(StdChar, Sextets(b)) + seq(PadCount(|b|), _ => '=')
  }

  /** Unpadded base64url of RFC 4648 section 5, the encoding RFC 7636 Appendix A asks for. */
  function UrlEncode(b: seq<byte>): (r: string)
    ensures |r| == (4 * |b| + 2) / 3
    ensures forall i :: 0 <= i < |r| ==> IsUrlSafe(r[i])
  {
    MapChars(UrlChar, Sextets(b))
  }

  /** `String.fromCharCode(b[i])` for each byte, concatenated: the "binary string". */
  function Latin1(b: seq<byte>): (s: string)
    ensures |s| == |b|
    ensures forall i :: 0 <= i < |b| ==> s[i] as int == b[i]
  {
    seq(|b|, i requires 0 <= i < |b| => b[i] as char)
  }

  /** The bytes a binary string stands for. */
  function CharCodes(s: string): seq<byte>
    requires forall i :: 0 <= i < |s| ==> (s[i] as int) < 256
  {
    seq(|s|, i requires 0 <= i < |s| => s[i] as int)
  }

  /** `btoa(s)`: an InvalidCharacterError (None) when some character is above U+00FF, and
      otherwise the padded base64 of the bytes the characters stand for. */
  function Btoa(s: string): (r: Option<string>)
    ensures r.None? <==> exists i :: 0 <= i < |s| && (s[i] as int) >= 256
  {
    if forall i :: 0 <= i < |s| ==> (s[i] as int) < 256 then Some(StdEncode(CharCodes(s)))
    else None
  }

  /** `s.replace(/x/g, y)` for single characters `x` and `y`. */
  function ReplaceAll(s: string, x: char, y: char): string {
    seq(|s|, i requires 0 <= i < |s| => if s[i] == x then y else s[i])
  }

  /** `s.replace(/x/g, '')` for a single character `x`. */
  function RemoveAll(s: string, x: char): (r: string)
    ensures x !in r
    ensures |r| <= |s|
  {
    if s == [] then [] else (if s[0] == x then [] else [s[0]]) + RemoveAll(s[1..], x)
  }

  /** The three substitutions `base64URLEncode` applies to the output of `btoa`. */
  function UrlSafe(base64: string): string {
    RemoveAll(ReplaceAll(ReplaceAll(base64, '+', '-'), '/', '_'), '=')
  }

  lemma {:induction false} RemoveAllConcat(a: string, b: string, x: char)
    ensures RemoveAll(a + b, x) == RemoveAll(a, x) + RemoveAll(b, x)
  {
    if a == [] {
      assert a + b == b;
    } else {
      assert (a + b)[0] == a[0];
      assert (a + b)[1..] == a[1..] + b;
      RemoveAllConcat(a[1..], b, x);
    }
  }

  lemma {:induction false} RemoveAllAbsent(s: string, x: char)
    requires x !in s
    ensures RemoveAll(s, x) == s
  {
    if s != [] {
      RemoveAllAbsent(s[1..], x);
    }
  }

  lemma {:induction false} RemoveAllOnly(s: string, x: char)
    requires forall i :: 0 <= i < |s| ==> s[i] == x
    ensures RemoveAll(s, x) == []
  {
    if s != [] {
      RemoveAllOnly(s[1..], x);
    }
  }

  /** The two replacements map each character of Table 1 to the one of Table 2. */
  lemma SwapChar(v: sextet)
    ensures var c := StdChar(v);
            var c1 := if c == '+' then '-' else c;
            (if c1 == '/' then '_' else c1) == UrlChar(v)
  {
  }

  /** Replacing '+' and '/' in the padded standard encoding and removing its '=' padding gives
      exactly the unpadded base64url encoding. */
  lemma StdToUrl(b: seq<byte>)
    ensures UrlSafe(StdEncode(b)) == UrlEncode(b)
  {
    var v := Sextets(b);
    var pad: string := seq(PadCount(|b|), _ => '=');
    var replaced := ReplaceAll(ReplaceAll(StdEncode(b), '+', '-'), '/', '_');
    forall i | 0 <= i < |replaced| ensures replaced[i] == (UrlEncode(b) + pad)[i] {
      if i < |v| {
        SwapChar(v[i]);
      }
    }
    assert replaced == UrlEncode(b) + pad;
    assert '=' !in UrlEncode(b);
    RemoveAllConcat(UrlEncode(b), pad, '=');
    RemoveAllAbsent(UrlEncode(b), '=');
    RemoveAllOnly(pad, '=');
  }

  lemma BtoaOfLatin1(b: seq<byte>)
    ensures Btoa(Latin1(b)) == Some(StdEncode(b))
  {
    assert CharCodes(Latin1(b)) == b;
  }

  /** `base64URLEncode(buffer)`: builds the binary string one byte at a time, encodes it with
      `btoa` and makes the result URL-safe. */
  method Base64UrlEncode(buffer: seq<byte>) returns (r: string)
    ensures r == UrlEncode(buffer)
    ensures |r| == (4 * |buffer| + 2) / 3
    ensures forall i :: 0 <= i < |r| ==> IsUrlSafe(r[i])
  {
    var binary := "";
    for i := 0 to |buffer|
      invariant binary == Latin1(buffer[..i])
    {
      binary := binary + [buffer[i] as char];
    }
    assert buffer[..|buffer|] == buffer;
    BtoaOfLatin1(buffer);
    var base64 := Btoa(binary).value;
    r := UrlSafe(base64);
    StdToUrl(buffer);
  }

  lemma {:induction false} SextetsConcat(a: seq<byte>, b: seq<byte>)
    requires |a| % 3 == 0
    ensures Sextets(a + b) == Sextets(a) + Sextets(b)
  {
    if a == [] {
      assert a + b == b;
    } else {
      assert (a + b)[3..] == a[3..] + b;
      assert (a + b)[..3] == a[..3];
      SextetsConcat(a[3..], b);
    }
  }

  /** Encoding works group by group: a prefix of whole 24-bit groups encodes on its own. */
  lemma UrlEncodeConcat(a: seq<byte>, b: seq<byte>)
    requires |a| % 3 == 0
    ensures UrlEncode(a + b) == UrlEncode(a) + UrlEncode(b)
  {
    SextetsConcat(a, b);
  }

  /** The test vectors of RFC 4648 section 10 for one, two and three bytes ("f", "fo", "foo"),
      with the padding removed. */
  lemma Rfc4648Vectors()
    ensures UrlEncode([102]) == "Zg"
    ensures UrlEncode([102, 111]) == "Zm8"
    ensures UrlEncode([102, 111, 111]) == "Zm9v"
  {
    assert Sextets([102]) == [25, 32];
    assert Sextets([102, 111]) == [25, 38, 60];
    assert Sextets([102, 111, 111]) == [25, 38, 61, 47];
    assert UrlChar(25) == 'Z' && UrlChar(32) == 'g' && UrlChar(38) == 'm' && UrlChar(60) == '8';
    assert UrlChar(61) == '9' && UrlChar(47) == 'v';
  }

  // ---------------------------------------------------------------------------------------
  // Decoding, the inverse that shows the encoding loses nothing.

  /** The value of a character of the base64url alphabet. */
  function UrlValue(c: char): Option<sextet> {
    if 'A' <= c <= 'Z' then Some(c as int - 'A' as int)
    else if 'a' <= c <= 'z' then Some(c as int - 'a' as int + 26)
    else if '0' <= c <= '9' then Some(c as int - '0' as int + 52)
    else if c == '-' then Some(62)
    else if c == '_' then Some(63)
    else None
  }

  function UrlValues(s: string): Option<seq<sextet>> {
    if s == [] then Some([])
    else match (UrlValue(s[0]), UrlValues(s[1..]))
      case (Some(v), Some(rest)) => Some([v] + rest)
      case _ => None
  }

  /** Reassembles bytes from 6-bit groups: three per four, then one from two or two from three;
      a single leftover group is malformed. */
  function BytesOf(v: seq<sextet>): Option<seq<byte>> {
    if |v| == 0 then Some([])
    else if |v| == 1 then None
    else
      var b0: byte := (v[0] as int) * 4 + (v[1] as int) / 16;
      if |v| == 2 then Some([b0])
      else
        var b1: byte := ((v[1] as int) % 16) * 16 + (v[2] as int) / 4;
        if |v| == 3 then Some([b0, b1])
        else match BytesOf(v[4..])
          case None => None
          case Some(rest) =>
            var b2: byte := ((v[2] as int) % 4) * 64 + (v[3] as int);
            Some([b0, b1, b2] + rest)
  }

  /** Decodes unpadded base64url text. */
  function UrlDecode(s: string): Option<seq<byte>> {
    match UrlValues(s)
    case None => None
    case Some(v) => BytesOf(v)
  }

  lemma {:induction false} UrlValuesOfChars(v: seq<sextet>)
    ensures UrlValues(MapChars(UrlChar, v)) == Some(v)
  {
    if v != [] {
      var s := MapChars(UrlChar, v);
      assert s[0] == UrlChar(v[0]);
      assert UrlValue(s[0]) == Some(v[0]);
      assert s[1..] == MapChars(UrlChar, v[1..]);
      UrlValuesOfChars(v[1..]);
      assert [v[0]] + v[1..] == v;
    }
  }

  lemma {:induction false} BytesOfSextets(b: seq<byte>)
    ensures BytesOf(Sextets(b)) == Some(b)
  {
    if |b| >= 3 {
      var v := Sextets(b);
      assert v[4..] == Sextets(b[3..]);
      BytesOfSextets(b[3..]);
      assert b == [b[0], b[1], b[2]] + b[3..];
    } else if |b| == 2 {
      assert b == [b[0], b[1]];
    } else if |b| == 1 {
      assert b == [b[0]];
    }
  }

  /** Decoding undoes encoding, for every byte sequence. */
  lemma DecodeEncode(b: seq<byte>)
    ensures UrlDecode(UrlEncode(b)) == Some(b)
  {
    UrlValuesOfChars(Sextets(b));
    BytesOfSextets(b);
  }

  /** Distinct byte sequences have distinct encodings. */
  lemma UrlEncodeInjective(a: seq<byte>, b: seq<byte>)
    requires UrlEncode(a) == UrlEncode(b)
    ensures a == b
  {
    DecodeEncode(a);
    DecodeEncode(b);
  }
}
