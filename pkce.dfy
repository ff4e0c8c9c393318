/**
  The PKCE secret generator of RFC 7636: a code verifier made from 32 random bytes
  (section 4.1) and its S256 code challenge, the base64url text of the SHA-256 digest of the
  verifier's bytes (section 4.2).  The random source and SHA-256 are inputs: the bytes
  `crypto.getRandomValues` wrote, and a function from bytes to a 32-byte digest.
 */
module Pkce {
  import opened Base64Url

  /** A SHA-256 digest: always 32 bytes. */
  type Digest = d: seq<byte> | |d| == 32 witness seq(32, _ => 0)

  /** The characters RFC 7636 section 4.1 allows in a verifier: `[A-Za-z0-9._~-]`. */
  predicate IsUnreserved(c: char) {
    ('A' <= c <= 'Z') || ('a' <= c <= 'z') || ('0' <= c <= '9')
    || c == '-' || c == '.' || c == '_' || c == '~'
  }

  /** A well-formed code verifier: 43 to 128 unreserved characters. */
  predicate IsValidVerifier(v: string) {
    43 <= |v| <= 128 && forall i :: 0 <= i < |v| ==> IsUnreserved(v[i])
  }

  /** `TextEncoder.encode` of one character: its UTF-8 bytes. */
  function Utf8Char(c: char): (r: seq<byte>)
    ensures 1 <= |r| <= 4
    ensures (c as int) < 0x80 ==> r == [c as int]
    ensures (c as int) >= 0x80 ==> forall i :: 0 <= i < |r| ==> r[i] >= 0x80
  {
    var n := c as int;
    if n < 0x80 then [n]
    else if n < 0x800 then [0xC0 + n / 64, 0x80 + n % 64]
    else if n < 0x10000 then [0xE0 + n / 4096, 0x80 + (n / 64) % 64, 0x80 + n % 64]
    else [0xF0 + n / 262144, 0x80 + (n / 4096) % 64, 0x80 + (n / 64) % 64, 0x80 + n % 64]
  }

  /** `new TextEncoder().encode(s)`: the UTF-8 bytes of `s`; for an ASCII text, one byte per
      character, equal to its code. */
  function Utf8Encode(s: string): (r: seq<byte>)
    ensures |r| >= |s|
    ensures (forall i :: 0 <= i < |s| ==> (s[i] as int) < 0x80) ==>
              |r| == |s| && forall i :: 0 <= i < |s| ==> r[i] == s[i] as int
  {
    if s == [] then [] else Utf8Char(s[0]) + Utf8Encode(s[1..])
  }

  /** `generateCodeVerifier`: the base64url text of the 32 random bytes. */
  method GenerateCodeVerifier(randomBytes: seq<byte>) returns (v: string)
    requires |randomBytes| == 32
    ensures v == UrlEncode(randomBytes)
    ensures |v| == 43 && IsValidVerifier(v)
  {
    v := Base64UrlEncode(randomBytes);
  }

  /** `generateCodeChallenge`: the base64url text of the SHA-256 digest of the verifier's
      UTF-8 bytes. */
  method GenerateCodeChallenge(codeVerifier: string, sha256: seq<byte> -> Digest)
    returns (c: string)
    ensures c == UrlEncode(sha256(Utf8Encode(codeVerifier)))
    ensures |c| == 43 && forall i :: 0 <= i < |c| ==> IsUrlSafe(c[i])
  {
    var data := Utf8Encode(codeVerifier);
    var hashBuffer := sha256(data);
    c := Base64UrlEncode(hashBuffer);
  }

  /** The verifier built from `randomBytes`, as a function for the specifications. */
  function VerifierOf(randomBytes: seq<byte>): (v: string)
    requires |randomBytes| == 32
    ensures |v| == 43 && IsValidVerifier(v)
  {
    UrlEncode(randomBytes)
  }

  /** The S256 challenge of `codeVerifier`, as a function for the specifications. */
  function ChallengeOf(codeVerifier: string, sha256: seq<byte> -> Digest): (c: string)
    ensures |c| == 43 && forall i :: 0 <= i < |c| ==> IsUrlSafe(c[i])
  {
    UrlEncode(sha256(Utf8Encode(codeVerifier)))
  }

  /** The bytes hashed for a generated verifier are its ASCII codes, as section 4.2 of
      RFC 7636 writes it: SHA256(ASCII(code_verifier)). */
  lemma HashedBytesAreAscii(randomBytes: seq<byte>)
    requires |randomBytes| == 32
    ensures var v := VerifierOf(randomBytes);
            |Utf8Encode(v)| == 43 && forall i :: 0 <= i < 43 ==> Utf8Encode(v)[i] == v[i] as int
  {
    var v := VerifierOf(randomBytes);
    assert forall i :: 0 <= i < |v| ==> (v[i] as int) < 0x80 by {
      forall i | 0 <= i < |v| ensures (v[i] as int) < 0x80 {
        assert IsUrlSafe(v[i]);
      }
    }
  }

  /** Different random bytes give different verifiers. */
  lemma DistinctRandomDistinctVerifiers(r1: seq<byte>, r2: seq<byte>)
    requires |r1| == 32 && |r2| == 32 && r1 != r2
    ensures VerifierOf(r1) != VerifierOf(r2)
  {
    if VerifierOf(r1) == VerifierOf(r2) {
      UrlEncodeInjective(r1, r2);
    }
  }
}
