/** packages/protocol/src/crypto/hkdf.js: the extract and expand of RFC 5869, over an HMAC with 32-byte output. */
module Hkdf {
  import opened Bytes
  import opened Wrappers
  import Utf8

  const HASH_BYTES: nat := 32
  const LONGEST: nat := 255 * HASH_BYTES

  type Mac = (bytes, bytes) -> bytes

  ghost predicate Digests(hmac: Mac) {
    forall key, message :: |hmac(key, message)| == HASH_BYTES
  }

  function Extract(hmac: Mac, salt: bytes, ikm: bytes): bytes {
    hmac(if |salt| > 0 then salt else seq(HASH_BYTES, _ => 0), ikm)
  }

  /** T(i) of section 2.3 of RFC 5869. */
  function Block(hmac: Mac, prk: bytes, info: bytes, i: nat): bytes
    requires i <= 255
  {
    if i == 0 then [] else hmac(prk, Block(hmac, prk, info, i - 1) + info + [i])
  }

  /** T(1) | .. | T(n) */
  function Blocks(hmac: Mac, prk: bytes, info: bytes, n: nat): bytes
    requires n <= 255
  {
    if n == 0 then [] else Blocks(hmac, prk, info, n - 1) + Block(hmac, prk, info, n)
  }

  /** N = ceil(L / HashLen) */
  function BlockCount(length: nat): (n: nat)
    requires length <= LONGEST
    ensures n <= 255 && (if length == 0 then n == 0 else (n - 1) * HASH_BYTES < length <= n * HASH_BYTES)
  {
    (length + HASH_BYTES - 1) / HASH_BYTES
  }

  lemma {:induction false} BlocksLength(hmac: Mac, prk: bytes, info: bytes, n: nat)
    requires Digests(hmac) && n <= 255
    ensures |Blocks(hmac, prk, info, n)| == n * HASH_BYTES
  {
    if n > 0 {
      BlocksLength(hmac, prk, info, n - 1);
    }
  }

  lemma {:induction false} BlocksGrow(hmac: Mac, prk: bytes, info: bytes, m: nat, n: nat)
    requires m <= n <= 255
    ensures Blocks(hmac, prk, info, m) <= Blocks(hmac, prk, info, n)
  {
    if m < n {
      BlocksGrow(hmac, prk, info, m, n - 1);
    }
  }

  /** OKM: the first L octets of T(1) | .. | T(N). */
  function Okm(hmac: Mac, prk: bytes, info: bytes, length: nat): (okm: bytes)
    requires Digests(hmac) && length <= LONGEST
    ensures |okm| == length
  {
    BlocksLength(hmac, prk, info, BlockCount(length));
    Blocks(hmac, prk, info, BlockCount(length))[..length]
  }

  /** A shorter output is a prefix of every longer one. */
  lemma ShorterIsPrefix(hmac: Mac, prk: bytes, info: bytes, short: nat, long: nat)
    requires Digests(hmac) && short <= long <= LONGEST
    ensures Okm(hmac, prk, info, short) <= Okm(hmac, prk, info, long)
  {
    BlocksLength(hmac, prk, info, BlockCount(short));
    BlocksLength(hmac, prk, info, BlockCount(long));
    assert BlockCount(short) <= BlockCount(long);
    BlocksGrow(hmac, prk, info, BlockCount(short), BlockCount(long));
  }

  /** Up to one hash, the output is the front of a single HMAC. */
  lemma ShortOutput(hmac: Mac, prk: bytes, info: bytes, length: nat)
    requires Digests(hmac) && 0 < length <= HASH_BYTES
    ensures Okm(hmac, prk, info, length) == hmac(prk, info + [1])[..length]
  {
    assert BlockCount(length) == 1;
    assert Blocks(hmac, prk, info, 0) == [] && Block(hmac, prk, info, 0) == [];
    assert [] + info + [1] == info + [1];
  }

  /** Section 2.3 of RFC 5869, step by step: each further block is keyed with the one before it and its number. */
  lemma NextBlock(hmac: Mac, prk: bytes, info: bytes, n: nat)
    requires Digests(hmac) && n < 255
    ensures Okm(hmac, prk, info, 32 * (n + 1))
         == Okm(hmac, prk, info, 32 * n) + hmac(prk, LastOf(Okm(hmac, prk, info, 32 * n)) + info + [n + 1])
  {
    WholeBlocks(hmac, prk, info, n);
    WholeBlocks(hmac, prk, info, n + 1);
    assert LastOf(Blocks(hmac, prk, info, n)) == Block(hmac, prk, info, n) by {
      if n > 0 {
        BlocksLength(hmac, prk, info, n - 1);
      }
    }
  }

  /** The last 32 bytes, or as many as there are. */
  function LastOf(b: bytes): bytes {
    if |b| <= 32 then b else b[|b| - 32..]
  }

  lemma WholeBlocks(hmac: Mac, prk: bytes, info: bytes, n: nat)
    requires Digests(hmac) && n <= 255
    ensures Okm(hmac, prk, info, 32 * n) == Blocks(hmac, prk, info, n) && |Blocks(hmac, prk, info, n)| == 32 * n
  {
    BlocksLength(hmac, prk, info, n);
    assert BlockCount(32 * n) == n;
  }

  /** A request longer than 255 blocks: RangeError. */
  datatype TooLong = TooLong(length: int)

  function Expanded(hmac: Mac, prk: bytes, info: bytes, length: nat): Result<bytes, TooLong>
    requires Digests(hmac)
  {
    if length > LONGEST then Err(TooLong(length)) else Ok(Okm(hmac, prk, info, length))
  }

  /** The next block, or its front, behind the blocks before it. */
  lemma OneBlockMore(hmac: Mac, prk: bytes, info: bytes, counter: nat, take: nat)
    requires Digests(hmac) && 1 <= counter <= 255 && take <= HASH_BYTES
    ensures |Blocks(hmac, prk, info, counter - 1)| == (counter - 1) * HASH_BYTES
    ensures |Blocks(hmac, prk, info, counter)| == counter * HASH_BYTES
    ensures Blocks(hmac, prk, info, counter)[..(counter - 1) * HASH_BYTES + take]
            == Blocks(hmac, prk, info, counter - 1) + Block(hmac, prk, info, counter)[..take]
  {
    BlocksLength(hmac, prk, info, counter - 1);
  }

  lemma NoBlocks(hmac: Mac, prk: bytes, info: bytes)
    ensures Blocks(hmac, prk, info, 0) == []
  {}

  lemma LastBlock(hmac: Mac, prk: bytes, info: bytes, length: nat, n: nat)
    requires Digests(hmac) && length <= LONGEST && n <= 255
    requires length <= n * HASH_BYTES < length + HASH_BYTES
    ensures length <= |Blocks(hmac, prk, info, n)|
    ensures Blocks(hmac, prk, info, n)[..length] == Okm(hmac, prk, info, length)
  {
    BlocksLength(hmac, prk, info, n);
    assert n == BlockCount(length);
  }

  /** The counter is one byte, so it is written modulo 256; it never gets that far. */
  method Expand(hmac: Mac, prk: bytes, info: bytes, length: nat) returns (r: Result<bytes, TooLong>)
    requires Digests(hmac)
    ensures r == Expanded(hmac, prk, info, length)
    ensures r.Err? <==> length > 255 * 32
    ensures r.Ok? ==> |r.value| == length
  {
    hide Blocks, Okm;
    if length > LONGEST {
      return Err(TooLong(length));
    }
    var out := new byte[length](_ => 0);
    var block: bytes := [];
    var counter, written := 1, 0;
    NoBlocks(hmac, prk, info);
    while written < length
      invariant 1 <= counter && (counter - 1) * HASH_BYTES < length + HASH_BYTES
      invariant written == if (counter - 1) * HASH_BYTES <= length then (counter - 1) * HASH_BYTES else length
      invariant block == Block(hmac, prk, info, counter - 1)
      invariant written <= |Blocks(hmac, prk, info, counter - 1)|
      invariant out[..written] == Blocks(hmac, prk, info, counter - 1)[..written]
    {
      assert counter % 256 == counter;
      block := hmac(prk, block + info + [counter % 256]);
      var take := if |block| <= length - written then |block| else length - written;
      SetAt(out, block[..take], written);
      OneBlockMore(hmac, prk, info, counter, take);
      written := written + take;
      counter := counter + 1;
    }
    LastBlock(hmac, prk, info, length, counter - 1);
    assert out[..] == out[..written];
    return Ok(out[..]);
  }

  // ---------------------------------------------------------------------------------------------
  // The labelled forms of section 4 of RFC 9180
  // ---------------------------------------------------------------------------------------------

  /** "HPKE-v1" */
  const HPKE_VERSION: bytes := [0x48, 0x50, 0x4B, 0x45, 0x2D, 0x76, 0x31]

  function LabeledIkm(suiteId: bytes, name: string, ikm: bytes): bytes {
    HPKE_VERSION + suiteId + Utf8.Encode(name) + ikm
  }

  function LabeledExtract(hmac: Mac, suiteId: bytes, salt: bytes, name: string, ikm: bytes): bytes {
    Extract(hmac, salt, LabeledIkm(suiteId, name, ikm))
  }

  function LabeledInfo(suiteId: bytes, name: string, info: bytes, length: nat): bytes {
    BigEndian(length, 2) + HPKE_VERSION + suiteId + Utf8.Encode(name) + info
  }

  function LabeledExpand(hmac: Mac, suiteId: bytes, prk: bytes, name: string, info: bytes,
                         length: nat): (r: Result<bytes, TooLong>)
    requires Digests(hmac)
    ensures r.Ok? <==> length <= LONGEST
    ensures r.Ok? ==> |r.value| == length
  {
    Expanded(hmac, prk, LabeledInfo(suiteId, name, info, length), length)
  }

  /** The length is part of what is expanded, so unlike Expand no two lengths share an input. */
  lemma LengthsAreSeparated(suiteA: bytes, suiteB: bytes, a: string, b: string, infoA: bytes, infoB: bytes, m: nat,
                            n: nat)
    requires m <= LONGEST && n <= LONGEST
    requires LabeledInfo(suiteA, a, infoA, m) == LabeledInfo(suiteB, b, infoB, n)
    ensures m == n
  {
    Spans();
    assert LabeledInfo(suiteA, a, infoA, m)[..2] == BigEndian(m, 2);
    assert LabeledInfo(suiteB, b, infoB, n)[..2] == BigEndian(n, 2);
    BigEndianRoundTrip(m, 2);
    BigEndianRoundTrip(n, 2);
  }

  lemma DroppedPrefix(x: bytes, y: bytes, z: bytes)
    requires x + y == x + z
    ensures y == z
  {
    assert (x + y)[|x|..] == y && (x + z)[|x|..] == z;
  }

  lemma OneIsPrefix(a: bytes, b: bytes, x: bytes, y: bytes)
    requires a + x == b + y && |a| <= |b|
    ensures a <= b
  {
    assert (a + x)[..|a|] == a && (b + y)[..|a|] == b[..|a|];
  }

  /** Names of which neither starts the other never share an input, whatever follows them. */
  lemma NamesAreSeparated(suiteId: bytes, a: string, b: string, infoA: bytes, infoB: bytes, length: nat)
    requires LabeledInfo(suiteId, a, infoA, length) == LabeledInfo(suiteId, b, infoB, length)
    ensures Utf8.Encode(a) <= Utf8.Encode(b) || Utf8.Encode(b) <= Utf8.Encode(a)
  {
    var front := BigEndian(length, 2) + HPKE_VERSION + suiteId;
    var x, y := Utf8.Encode(a), Utf8.Encode(b);
    assert LabeledInfo(suiteId, a, infoA, length) == front + (x + infoA);
    assert LabeledInfo(suiteId, b, infoB, length) == front + (y + infoB);
    DroppedPrefix(front, x + infoA, y + infoB);
    if |x| <= |y| {
      OneIsPrefix(x, y, infoA, infoB);
    } else {
      OneIsPrefix(y, x, infoB, infoA);
    }
  }
}
