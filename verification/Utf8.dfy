/**
 * TextEncoder, and TextDecoder as packages/protocol/src/bytes.js configures it: fatal, so malformed
 * input is refused, but without ignoreBOM, so one leading EF BB BF is dropped.
 */
module Utf8 {
  import opened Bytes
  import opened Wrappers

  function EncodeChar(c: char): (r: bytes)
    ensures 1 <= |r| <= 4
  {
    var n := c as int;
    if n < 0x80 then [n]
    else if n < 0x800 then [0xC0 + n / 64, 0x80 + n % 64]
    else if n < 0x1_0000 then [0xE0 + n / 4096, 0x80 + n / 64 % 64, 0x80 + n % 64]
    else [0xF0 + n / 262144, 0x80 + n / 4096 % 64, 0x80 + n / 64 % 64, 0x80 + n % 64]
  }

  function Encode(s: string): bytes {
    if s == "" then [] else EncodeChar(s[0]) + Encode(s[1..])
  }

  predicate IsTail(b: byte) {
    0x80 <= b < 0xC0
  }

  predicate IsScalar(n: int) {
    0 <= n < 0xD800 || 0xE000 <= n < 0x11_0000
  }

  function Two(a: int, b: int): int {
    (a - 0xC0) * 64 + (b - 0x80)
  }

  function Three(a: int, b: int, c: int): int {
    (a - 0xE0) * 4096 + (b - 0x80) * 64 + (c - 0x80)
  }

  function Four(a: int, b: int, c: int, d: int): int {
    (a - 0xF0) * 262144 + (b - 0x80) * 4096 + (c - 0x80) * 64 + (d - 0x80)
  }

  /** The first character and the bytes it takes; None when they are not well-formed UTF-8. */
  function DecodeChar(b: bytes): (r: Option<(char, nat)>)
    requires b != []
    ensures r.Some? ==> 1 <= r.value.1 <= |b|
  {
    if b[0] < 0x80 then Some((b[0] as char, 1))
    else if 0xC2 <= b[0] < 0xE0 && |b| >= 2 && IsTail(b[1]) then
      Some((Two(b[0], b[1]) as char, 2))
    else if 0xE0 <= b[0] < 0xF0 && |b| >= 3 && IsTail(b[1]) && IsTail(b[2]) then
      var n := Three(b[0], b[1], b[2]);
      if n >= 0x800 && IsScalar(n) then Some((n as char, 3)) else None
    else if 0xF0 <= b[0] < 0xF5 && |b| >= 4 && IsTail(b[1]) && IsTail(b[2]) && IsTail(b[3]) then
      var n := Four(b[0], b[1], b[2], b[3]);
      if n >= 0x1_0000 && IsScalar(n) then Some((n as char, 4)) else None
    else None
  }

  function DecodeAll(b: bytes): Option<string> {
    if b == [] then Some("") else
      match DecodeChar(b)
      case None => None
      case Some((c, n)) =>
        match DecodeAll(b[n..])
        case None => None
        case Some(rest) => Some([c] + rest)
  }

  const BOM: bytes := [0xEF, 0xBB, 0xBF]

  predicate BomLed(b: bytes) {
    BOM <= b
  }

  /** fromUtf8 */
  function Decode(b: bytes): Option<string> {
    DecodeAll(if BomLed(b) then b[3..] else b)
  }

  lemma TwoUndoes(n: nat)
    requires 0x80 <= n < 0x800
    ensures 0xC2 <= 0xC0 + n / 64 < 0xE0 && Two(0xC0 + n / 64, 0x80 + n % 64) == n
  {}

  lemma ThreeUndoes(n: nat)
    requires 0x800 <= n < 0x1_0000
    ensures 0xE0 <= 0xE0 + n / 4096 < 0xF0 && Three(0xE0 + n / 4096, 0x80 + n / 64 % 64, 0x80 + n % 64) == n
  {
    assert n / 4096 == n / 64 / 64;
  }

  lemma FourUndoes(n: nat)
    requires 0x1_0000 <= n < 0x11_0000
    ensures 0xF0 <= 0xF0 + n / 262144 < 0xF5
    ensures Four(0xF0 + n / 262144, 0x80 + n / 4096 % 64, 0x80 + n / 64 % 64, 0x80 + n % 64) == n
  {
    assert n / 4096 == n / 64 / 64 && n / 262144 == n / 4096 / 64;
  }

  lemma CharRoundTrip(c: char, rest: bytes)
    ensures DecodeChar(EncodeChar(c) + rest) == Some((c, |EncodeChar(c)|))
  {
    var n := c as int;
    var b := EncodeChar(c) + rest;
    assert forall i :: 0 <= i < |EncodeChar(c)| ==> b[i] == EncodeChar(c)[i];
    if 0x80 <= n < 0x800 {
      TwoUndoes(n);
    } else if 0x800 <= n < 0x1_0000 {
      ThreeUndoes(n);
    } else if 0x1_0000 <= n {
      FourUndoes(n);
    }
  }

  lemma TwoIsCanonical(a: byte, b: byte)
    requires 0xC2 <= a < 0xE0 && IsTail(b)
    ensures EncodeChar(Two(a, b) as char) == [a, b]
  {}

  lemma ThreeIsCanonical(a: byte, b: byte, c: byte)
    requires 0xE0 <= a < 0xF0 && IsTail(b) && IsTail(c) && Three(a, b, c) >= 0x800 && IsScalar(Three(a, b, c))
    ensures EncodeChar(Three(a, b, c) as char) == [a, b, c]
  {
    var n := Three(a, b, c);
    assert n / 4096 == a - 0xE0 && n / 64 == (a - 0xE0) * 64 + (b - 0x80);
  }

  lemma FourIsCanonical(a: byte, b: byte, c: byte, d: byte)
    requires 0xF0 <= a < 0xF5 && IsTail(b) && IsTail(c) && IsTail(d) && Four(a, b, c, d) >= 0x1_0000
             && IsScalar(Four(a, b, c, d))
    ensures EncodeChar(Four(a, b, c, d) as char) == [a, b, c, d]
  {
    var n := Four(a, b, c, d);
    assert n / 262144 == a - 0xF0 && n / 4096 == (a - 0xF0) * 64 + (b - 0x80);
    assert n / 64 == (a - 0xF0) * 4096 + (b - 0x80) * 64 + (c - 0x80);
  }

  lemma CharIsCanonical(b: bytes)
    requires b != [] && DecodeChar(b).Some?
    ensures EncodeChar(DecodeChar(b).value.0) == b[..DecodeChar(b).value.1]
  {
    var (c, n) := DecodeChar(b).value;
    if n == 2 {
      TwoIsCanonical(b[0], b[1]);
    } else if n == 3 {
      ThreeIsCanonical(b[0], b[1], b[2]);
    } else if n == 4 {
      FourIsCanonical(b[0], b[1], b[2], b[3]);
    }
  }

  lemma {:induction false} AllRoundTrip(s: string)
    ensures DecodeAll(Encode(s)) == Some(s)
  {
    if s != "" {
      var first, rest := EncodeChar(s[0]), Encode(s[1..]);
      CharRoundTrip(s[0], rest);
      assert (first + rest)[|first|..] == rest;
      AllRoundTrip(s[1..]);
      assert [s[0]] + s[1..] == s;
    }
  }

  lemma EncodeCons(c: char, rest: string)
    ensures Encode([c] + rest) == EncodeChar(c) + Encode(rest)
  {
    assert ([c] + rest)[1..] == rest;
  }

  lemma {:induction false} AllIsCanonical(b: bytes)
    requires DecodeAll(b).Some?
    ensures Encode(DecodeAll(b).value) == b
  {
    hide DecodeChar, EncodeChar;
    if b != [] {
      var (c, n) := DecodeChar(b).value;
      CharIsCanonical(b);
      AllIsCanonical(b[n..]);
      EncodeCons(c, DecodeAll(b[n..]).value);
      assert b == b[..n] + b[n..];
    }
  }

  lemma EncodedBom(s: string)
    ensures BomLed(Encode(s)) <==> s != "" && s[0] == '\U{FEFF}'
  {
    if s != "" {
      var first, rest := EncodeChar(s[0]), Encode(s[1..]);
      assert Encode(s)[0] == first[0];
      if s[0] as int >= 0x800 && (s[0] as int) < 0x1_0000 {
        assert Encode(s)[1] == first[1] && Encode(s)[2] == first[2];
      }
    }
  }

  /** A string survives encoding and decoding exactly when it does not start with U+FEFF. */
  lemma StringRoundTrip(s: string)
    ensures Decode(Encode(s)) == Some(s) <==> !(s != "" && s[0] == '\U{FEFF}')
    ensures s != "" && s[0] == '\U{FEFF}' ==> Decode(Encode(s)) == Some(s[1..])
  {
    EncodedBom(s);
    AllRoundTrip(s);
    if s != "" && s[0] == '\U{FEFF}' {
      assert EncodeChar(s[0]) == BOM;
      assert Encode(s)[3..] == Encode(s[1..]);
      AllRoundTrip(s[1..]);
    }
  }

  /** Accepted bytes are the encoding of what they decode to, but for a dropped leading mark. */
  lemma DecodingIsCanonical(b: bytes)
    requires Decode(b).Some?
    ensures Encode(Decode(b).value) == if BomLed(b) then b[3..] else b
  {
    AllIsCanonical(if BomLed(b) then b[3..] else b);
  }

  /** One character of each length, as section 3 of RFC 3629 encodes it. */
  lemma CharactersOfEachLength()
    ensures Encode("A") == [0x41] && Encode("\U{E9}") == [0xC3, 0xA9]
    ensures Encode("\U{20B9}") == [0xE2, 0x82, 0xB9] && Encode("\U{1F600}") == [0xF0, 0x9F, 0x98, 0x80]
  {
    EncodeCons('A', "");
    EncodeCons('\U{E9}', "");
    EncodeCons('\U{20B9}', "");
    EncodeCons('\U{1F600}', "");
  }

  lemma {:induction false} AsciiLength(s: string)
    requires forall i :: 0 <= i < |s| ==> s[i] < '\U{80}'
    ensures |Encode(s)| == |s| && forall i :: 0 <= i < |s| ==> Encode(s)[i] == s[i] as int
  {
    if s != "" {
      AsciiLength(s[1..]);
    }
  }
}
