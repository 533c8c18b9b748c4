/** packages/protocol/src/bytes.js: byte strings and big-endian integers. */
module Bytes {

  type byte = x: int | 0 <= x < 256
  type bytes = seq<byte>

  /** The largest integer JavaScript holds exactly. */
  const MAX_SAFE: int := 0x1F_FFFF_FFFF_FFFF

  /** The parts one after the other. */
  function Flatten(parts: seq<bytes>): bytes {
    if parts == [] then [] else Flatten(parts[..|parts| - 1]) + parts[|parts| - 1]
  }

  function TotalLength(parts: seq<bytes>): (n: nat)
    ensures n == |Flatten(parts)|
  {
    if parts == [] then 0 else TotalLength(parts[..|parts| - 1]) + |parts[|parts| - 1]|
  }

  lemma {:induction false} FlattenGrows(parts: seq<bytes>, n: nat)
    requires n <= |parts|
    ensures |Flatten(parts[..n])| <= |Flatten(parts)|
    decreases |parts|
  {
    if n < |parts| {
      var front := parts[..|parts| - 1];
      assert front[..n] == parts[..n];
      FlattenGrows(front, n);
    } else {
      assert parts[..n] == parts;
    }
  }

  /** out.set(part, offset) */
  method SetAt(out: array<byte>, part: bytes, offset: nat)
    requires offset + |part| <= out.Length
    modifies out
    ensures out[..] == old(out[..offset]) + part + old(out[offset + |part|..])
  {
    forall i | 0 <= i < |part| {
      out[offset + i] := part[i];
    }
  }

  /** concat: a buffer of the total length, filled part by part at a running offset. */
  method Concat(parts: seq<bytes>) returns (joined: bytes)
    ensures joined == Flatten(parts)
  {
    var out := new byte[TotalLength(parts)](_ => 0);
    var offset, i := 0, 0;
    while i < |parts|
      invariant 0 <= i <= |parts|
      invariant offset == |Flatten(parts[..i])| <= out.Length
      invariant out[..offset] == Flatten(parts[..i])
      invariant out.Length == |Flatten(parts)|
    {
      assert parts[..i + 1][..i] == parts[..i];
      FlattenGrows(parts, i + 1);
      SetAt(out, parts[i], offset);
      offset := offset + |parts[i]|;
      i := i + 1;
    }
    assert parts[..i] == parts;
    return out[..];
  }

  // ---------------------------------------------------------------------------------------------
  // Big-endian integers
  // ---------------------------------------------------------------------------------------------

  /** 256 to the power n. */
  function Span(n: nat): (r: int)
    ensures r >= 1
  {
    if n == 0 then 1 else 256 * Span(n - 1)
  }

  /** The low n bytes of v, most significant first: I2OSP of RFC 8017 when v fits. */
  function BigEndian(v: nat, n: nat): (r: bytes)
    ensures |r| == n
  {
    if n == 0 then [] else BigEndian(v / 256, n - 1) + [v % 256]
  }

  function FromBigEndian(b: bytes): (v: nat)
    ensures v < Span(|b|)
  {
    if b == [] then 0 else FromBigEndian(b[..|b| - 1]) * 256 + b[|b| - 1]
  }

  lemma OneByte(v: nat)
    requires v < 256
    ensures BigEndian(v, 1) == [v]
  {
    assert BigEndian(v / 256, 0) == [];
  }

  lemma TwoBytes(v: nat)
    requires v < 256
    ensures BigEndian(v, 2) == [0, v]
  {
    OneByte(0);
  }

  lemma {:induction false} BigEndianRoundTrip(v: nat, n: nat)
    requires v < Span(n)
    ensures FromBigEndian(BigEndian(v, n)) == v
  {
    if n > 0 {
      BigEndianRoundTrip(v / 256, n - 1);
      var b := BigEndian(v, n);
      assert b[..|b| - 1] == BigEndian(v / 256, n - 1);
    }
  }

  lemma {:induction false} BigEndianIsCanonical(b: bytes)
    ensures BigEndian(FromBigEndian(b), |b|) == b
  {
    if b != [] {
      BigEndianIsCanonical(b[..|b| - 1]);
      assert b == b[..|b| - 1] + [b[|b| - 1]];
    }
  }

  lemma Spans()
    ensures Span(1) == 0x100 && Span(2) == 0x1_0000 && Span(4) == 0x1_0000_0000 && Span(8) == 0x1_0000_0000_0000_0000
  {
    assert Span(3) == 256 * Span(2) && Span(5) == 256 * Span(4) && Span(6) == 256 * Span(5) && Span(7) == 256 * Span(6);
  }
}
