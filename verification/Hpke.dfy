/** packages/protocol/src/crypto/hpke.js: base mode of RFC 9180 over X25519 and HKDF-SHA256. */
module Hpke {
  import opened Bytes
  import opened Hkdf
  import opened Wrappers
  import Utf8

  /** The ids of a cipher suite, each a u16 on the wire. */
  type u16 = x: int | 0 <= x < 0x1_0000
  datatype Suite = Suite(kemId: u16, kdfId: u16, aeadId: u16)

  const X25519_SHA256_AES256GCM: Suite := Suite(0x0020, 0x0001, 0x0002)
  const SECRET_BYTES: nat := 32
  const KEY_BYTES: nat := 32
  const NONCE_BYTES: nat := 12

  const SECRET_NAME: string := "secret"
  const KEY_NAME: string := "key"
  const BASE_NONCE_NAME: string := "base_nonce"
  const EXPORTER_NAME: string := "exp"

  /** "HPKE" and "KEM" */
  function SuiteId(suite: Suite): bytes {
    [0x48, 0x50, 0x4B, 0x45] + BigEndian(suite.kemId, 2) + BigEndian(suite.kdfId, 2) + BigEndian(suite.aeadId, 2)
  }

  function KemSuiteId(suite: Suite): bytes {
    [0x4B, 0x45, 0x4D] + BigEndian(suite.kemId, 2)
  }

  // ---------------------------------------------------------------------------------------------
  // The KEM
  // ---------------------------------------------------------------------------------------------

  /** X25519 on raw 32-byte keys, and HMAC-SHA256. */
  datatype Curve = Curve(publicOf: bytes -> bytes, agree: (bytes, bytes) -> bytes, hmac: Mac)

  /** Fixed lengths, and both ends of an exchange agree. */
  ghost predicate IdealCurve(c: Curve) {
    && Digests(c.hmac)
    && (forall scalar :: |c.publicOf(scalar)| == KEY_BYTES)
    && (forall a, b :: c.agree(a, c.publicOf(b)) == c.agree(b, c.publicOf(a)))
  }

  predicate IsZero(b: bytes) {
    forall i :: 0 <= i < |b| ==> b[i] == 0
  }

  /** Keys of the wrong length are refused, and so is the all-zero result of a low-order public key. */
  function Dh(c: Curve, scalar: bytes, publicKey: bytes): Result<bytes, string> {
    if |scalar| != KEY_BYTES then Err("an X25519 private key must be 32 bytes")
    else if |publicKey| != KEY_BYTES then Err("an X25519 public key must be 32 bytes")
    else if IsZero(c.agree(scalar, publicKey)) then Err("X25519 produced the all-zero value")
    else Ok(c.agree(scalar, publicKey))
  }

  function ExtractAndExpand(c: Curve, suite: Suite, shared: bytes, kemContext: bytes): (secret: bytes)
    requires Digests(c.hmac)
    ensures |secret| == SECRET_BYTES
  {
    var prk := LabeledExtract(c.hmac, KemSuiteId(suite), [], "eae_prk", shared);
    LabeledExpand(c.hmac, KemSuiteId(suite), prk, "shared_secret", kemContext, SECRET_BYTES).value
  }

  datatype Encapsulated = Encapsulated(enc: bytes, sharedSecret: bytes)

  /** The sender's half of the KEM, for a given ephemeral scalar. */
  function EncapsulateWith(c: Curve, suite: Suite, recipient: bytes, ephemeral: bytes): Result<Encapsulated, string>
    requires Digests(c.hmac)
  {
    if |ephemeral| != KEY_BYTES then Err("an X25519 private key must be 32 bytes") else
    var shared :- Dh(c, ephemeral, recipient);
    var enc := c.publicOf(ephemeral);
    Ok(Encapsulated(enc, ExtractAndExpand(c, suite, shared, enc + recipient)))
  }

  /** The recipient's half. */
  function Decapsulate(c: Curve, suite: Suite, scalar: bytes, enc: bytes): Result<bytes, string>
    requires Digests(c.hmac)
  {
    if |scalar| != KEY_BYTES then Err("an X25519 private key must be 32 bytes") else
    var shared :- Dh(c, scalar, enc);
    Ok(ExtractAndExpand(c, suite, shared, enc + c.publicOf(scalar)))
  }

  /** The recipient derives the sender's secret, and neither end is refused unless both are. */
  lemma KemRoundTrip(c: Curve, suite: Suite, scalar: bytes, ephemeral: bytes)
    requires IdealCurve(c) && |scalar| == KEY_BYTES && |ephemeral| == KEY_BYTES
    ensures match EncapsulateWith(c, suite, c.publicOf(scalar), ephemeral)
            case Ok(sent) => |sent.enc| == 32 && Decapsulate(c, suite, scalar, sent.enc) == Ok(sent.sharedSecret)
            case Err(_) => Decapsulate(c, suite, scalar, c.publicOf(ephemeral)).Err?
  {
    assert c.agree(ephemeral, c.publicOf(scalar)) == c.agree(scalar, c.publicOf(ephemeral));
  }

  /** A label as section 4 of RFC 9180 writes it, behind the version and the suite. */
  function Label(suiteId: bytes, name: string): bytes {
    Utf8.Encode("HPKE-v1") + suiteId + Utf8.Encode(name)
  }

  lemma VersionText()
    ensures HPKE_VERSION == Utf8.Encode("HPKE-v1") && Utf8.Encode("KEM") == [0x4B, 0x45, 0x4D]
    ensures Utf8.Encode("HPKE") == [0x48, 0x50, 0x4B, 0x45]
  {
    Utf8.AsciiLength("HPKE-v1");
    Utf8.AsciiLength("KEM");
    Utf8.AsciiLength("HPKE");
  }

  const NO_SALT: bytes := seq(32, _ => 0)

  /** ExtractAndExpand of section 4.1 of RFC 9180, written out as two HMACs over the exchange and both public keys. */
  function KemSecret(hmac: Mac, suite: Suite, shared: bytes, enc: bytes, recipient: bytes): bytes {
    var kem := Utf8.Encode("KEM") + BigEndian(suite.kemId, 2);
    var prk := hmac(NO_SALT, Label(kem, "eae_prk") + shared);
    hmac(prk, BigEndian(32, 2) + Label(kem, "shared_secret") + (enc + recipient) + [1])
  }

  /** What is encapsulated. */
  lemma SharedSecretIs(c: Curve, suite: Suite, recipient: bytes, ephemeral: bytes)
    requires Digests(c.hmac) && EncapsulateWith(c, suite, recipient, ephemeral).Ok?
    ensures var sent := EncapsulateWith(c, suite, recipient, ephemeral).value;
            && sent.enc == c.publicOf(ephemeral)
            && sent.sharedSecret == KemSecret(c.hmac, suite, c.agree(ephemeral, recipient), sent.enc, recipient)
  {
    hide KemSecret, ExtractAndExpand, BigEndian, IsZero;
    ExtractedIs(c, suite, c.agree(ephemeral, recipient), c.publicOf(ephemeral), recipient);
  }

  lemma ExtractedIs(c: Curve, suite: Suite, shared: bytes, enc: bytes, recipient: bytes)
    requires Digests(c.hmac)
    ensures ExtractAndExpand(c, suite, shared, enc + recipient) == KemSecret(c.hmac, suite, shared, enc, recipient)
  {
    hide Utf8.Encode, BigEndian, Okm;
    VersionText();
    var kem := KemSuiteId(suite);
    var prk := LabeledExtract(c.hmac, kem, [], "eae_prk", shared);
    ShortOutput(c.hmac, prk, LabeledInfo(kem, "shared_secret", enc + recipient, 32), 32);
    assert LabeledIkm(kem, "eae_prk", shared) == Label(kem, "eae_prk") + shared;
    assert LabeledInfo(kem, "shared_secret", enc + recipient, 32)
        == BigEndian(32, 2) + Label(kem, "shared_secret") + (enc + recipient);
  }

  // ---------------------------------------------------------------------------------------------
  // The key schedule
  // ---------------------------------------------------------------------------------------------

  datatype Context = Context(key: bytes, baseNonce: bytes, exporterSecret: bytes)

  function KeyBytes(suite: Suite): Option<nat> {
    if suite.aeadId == 1 then Some(16) else if suite.aeadId == 2 then Some(32) else None
  }

  function KeyScheduleContext(hmac: Mac, suite: Suite, info: bytes): bytes {
    [0] + LabeledExtract(hmac, SuiteId(suite), [], "psk_id_hash", [])
        + LabeledExtract(hmac, SuiteId(suite), [], "info_hash", info)
  }

  function Derive(hmac: Mac, suite: Suite, secret: bytes, name: string, context: bytes, length: nat): (r: bytes)
    requires Digests(hmac) && length <= LONGEST
    ensures |r| == length
  {
    LabeledExpand(hmac, SuiteId(suite), secret, name, context, length).value
  }

  function DeriveAll(hmac: Mac, suite: Suite, secret: bytes, context: bytes, keyLength: nat): (c: Context)
    requires Digests(hmac) && keyLength <= LONGEST
    ensures |c.key| == keyLength && |c.baseNonce| == NONCE_BYTES && |c.exporterSecret| == SECRET_BYTES
  {
    Context(
      Derive(hmac, suite, secret, KEY_NAME, context, keyLength),
      Derive(hmac, suite, secret, BASE_NONCE_NAME, context, NONCE_BYTES),
      Derive(hmac, suite, secret, EXPORTER_NAME, context, SECRET_BYTES))
  }

  /** Refused for an AEAD without a known key length; otherwise the lengths are the suite's. */
  function KeySchedule(hmac: Mac, suite: Suite, sharedSecret: bytes, info: bytes): (r: Result<Context, string>)
    requires Digests(hmac)
    ensures r.Ok? <==> suite.aeadId == 1 || suite.aeadId == 2
    ensures r.Ok? ==> |r.value.key| == 16 * suite.aeadId && |r.value.baseNonce| == 12 && |r.value.exporterSecret| == 32
  {
    var context := KeyScheduleContext(hmac, suite, info);
    var secret := LabeledExtract(hmac, SuiteId(suite), sharedSecret, SECRET_NAME, []);
    match KeyBytes(suite)
    case None => Err("unsupported AEAD id")
    case Some(n) => Ok(DeriveAll(hmac, suite, secret, context, n))
  }

  /** A derived value is the front of one HMAC under the extracted secret. */
  lemma DerivedIsOneBlock(hmac: Mac, suite: Suite, secret: bytes, name: string, context: bytes, length: nat)
    requires Digests(hmac) && 0 < length <= HASH_BYTES
    ensures Derive(hmac, suite, secret, name, context, length)
         == hmac(secret, LabeledInfo(SuiteId(suite), name, context, length) + [1])[..length]
  {
    ShortOutput(hmac, secret, LabeledInfo(SuiteId(suite), name, context, length), length);
  }

  /** The secret of section 5.1 of RFC 9180: an HMAC keyed with the shared secret. */
  function ScheduledSecret(hmac: Mac, suite: Suite, sharedSecret: bytes): bytes {
    hmac(sharedSecret, LabeledIkm(SuiteId(suite), SECRET_NAME, []))
  }

  /** Key, nonce and exporter secret are each the front of one HMAC under it, over its own labelled input. */
  ghost predicate IsDerivedFrom(c: Context, hmac: Mac, suite: Suite, secret: bytes, context: bytes, keyLength: nat) {
    var id := SuiteId(suite);
    && IsFront(c.key, hmac(secret, LabeledInfo(id, KEY_NAME, context, keyLength) + [1]), keyLength)
    && IsFront(c.baseNonce, hmac(secret, LabeledInfo(id, BASE_NONCE_NAME, context, NONCE_BYTES) + [1]), NONCE_BYTES)
    && IsFront(c.exporterSecret, hmac(secret, LabeledInfo(id, EXPORTER_NAME, context, SECRET_BYTES) + [1]),
         SECRET_BYTES)
  }

  /** The first n bytes. */
  predicate IsFront(part: bytes, whole: bytes, n: nat) {
    |part| == n && part <= whole
  }

  lemma AllAreDerived(hmac: Mac, suite: Suite, secret: bytes, context: bytes, keyLength: nat)
    requires Digests(hmac) && 0 < keyLength <= HASH_BYTES
    ensures IsDerivedFrom(DeriveAll(hmac, suite, secret, context, keyLength), hmac, suite, secret, context, keyLength)
  {
    DerivedIsOneBlock(hmac, suite, secret, KEY_NAME, context, keyLength);
    DerivedIsOneBlock(hmac, suite, secret, BASE_NONCE_NAME, context, NONCE_BYTES);
    DerivedIsOneBlock(hmac, suite, secret, EXPORTER_NAME, context, SECRET_BYTES);
  }

  lemma ScheduleUnfolds(hmac: Mac, suite: Suite, sharedSecret: bytes, info: bytes)
    requires Digests(hmac) && sharedSecret != [] && KeySchedule(hmac, suite, sharedSecret, info).Ok?
    ensures KeySchedule(hmac, suite, sharedSecret, info).value
         == DeriveAll(hmac, suite, ScheduledSecret(hmac, suite, sharedSecret), KeyScheduleContext(hmac, suite, info),
             16 * suite.aeadId)
  {}

  /** So the key schedule is. */
  lemma KeyScheduleMeaning(hmac: Mac, suite: Suite, sharedSecret: bytes, info: bytes)
    requires Digests(hmac) && sharedSecret != [] && KeySchedule(hmac, suite, sharedSecret, info).Ok?
    ensures IsDerivedFrom(KeySchedule(hmac, suite, sharedSecret, info).value, hmac, suite,
                          ScheduledSecret(hmac, suite, sharedSecret), KeyScheduleContext(hmac, suite, info),
                              16 * suite.aeadId)
  {
    ScheduleUnfolds(hmac, suite, sharedSecret, info);
    AllAreDerived(hmac, suite, ScheduledSecret(hmac, suite, sharedSecret), KeyScheduleContext(hmac, suite, info),
        16 * suite.aeadId);
  }

  /** The secret of section 5.1 of RFC 9180 in base mode, written out. */
  function BaseSecret(hmac: Mac, id: bytes, sharedSecret: bytes): bytes {
    hmac(sharedSecret, Label(id, "secret"))
  }

  function BaseContext(hmac: Mac, id: bytes, info: bytes): bytes {
    [0] + hmac(NO_SALT, Label(id, "psk_id_hash")) + hmac(NO_SALT, Label(id, "info_hash") + info)
  }

  lemma ContextIs(hmac: Mac, sharedSecret: bytes, info: bytes)
    requires sharedSecret != []
    ensures var suite, id := X25519_SHA256_AES256GCM, SERVICE_SUITE;
            && KeyScheduleContext(hmac, suite, info) == BaseContext(hmac, id, info)
            && ScheduledSecret(hmac, suite, sharedSecret) == BaseSecret(hmac, id, sharedSecret)
  {
    hide Utf8.Encode;
    VersionText();
    SuiteIdIs();
    assert LabeledIkm(SERVICE_SUITE, "psk_id_hash", []) == Label(SERVICE_SUITE, "psk_id_hash");
    assert LabeledIkm(SERVICE_SUITE, "info_hash", info) == Label(SERVICE_SUITE, "info_hash") + info;
    assert LabeledIkm(SERVICE_SUITE, "secret", []) == Label(SERVICE_SUITE, "secret");
  }

  const SERVICE_SUITE: bytes := Utf8.Encode("HPKE") + [0, 0x20, 0, 1, 0, 2]

  /** What a key of that length is the front of. */
  function DerivedBlock(hmac: Mac, secret: bytes, name: string, context: bytes, length: nat): bytes {
    hmac(secret, BigEndian(length, 2) + Label(SERVICE_SUITE, name) + context + [1])
  }

  /** Key and base nonce of the service's suite, written out. */
  lemma ScheduleIs(hmac: Mac, sharedSecret: bytes, info: bytes, keys: Context)
    requires Digests(hmac) && sharedSecret != []
    requires KeySchedule(hmac, X25519_SHA256_AES256GCM, sharedSecret, info) == Ok(keys)
    ensures var secret := BaseSecret(hmac, SERVICE_SUITE, sharedSecret);
            var context := BaseContext(hmac, SERVICE_SUITE, info);
            && IsFront(keys.key, DerivedBlock(hmac, secret, "key", context, 32), 32)
            && IsFront(keys.baseNonce, DerivedBlock(hmac, secret, "base_nonce", context, 12), 12)
  {
    hide Utf8.Encode, BigEndian, BaseSecret, BaseContext, ScheduledSecret, KeyScheduleContext, KeySchedule, DeriveAll;
    VersionText();
    SuiteIdIs();
    var secret := BaseSecret(hmac, SERVICE_SUITE, sharedSecret);
    var context := BaseContext(hmac, SERVICE_SUITE, info);
    KeyScheduleMeaning(hmac, X25519_SHA256_AES256GCM, sharedSecret, info);
    ContextIs(hmac, sharedSecret, info);
    assert LabeledInfo(SERVICE_SUITE, "key", context, 32) == BigEndian(32, 2) + Label(SERVICE_SUITE, "key") + context;
    assert LabeledInfo(SERVICE_SUITE, "base_nonce", context, 12)
        == BigEndian(12, 2) + Label(SERVICE_SUITE, "base_nonce") + context;
  }

  lemma SuiteIdIs()
    ensures SuiteId(X25519_SHA256_AES256GCM) == SERVICE_SUITE
  {
    VersionText();
    assert BigEndian(0x20, 2) == [0, 0x20] && BigEndian(1, 2) == [0, 1] && BigEndian(2, 2) == [0, 2] by {
      TwoBytes(0x20);
      TwoBytes(1);
      TwoBytes(2);
    }
  }

  /** Two uses of one secret whose labels begin with different letters never share an input. */
  lemma UsesAreSeparated(suiteId: bytes, a: string, b: string, infoA: bytes, infoB: bytes, m: nat, n: nat)
    requires a != "" && b != "" && a[0] < '\U{80}' && b[0] < '\U{80}' && a[0] != b[0]
    requires m <= LONGEST && n <= LONGEST
    ensures LabeledInfo(suiteId, a, infoA, m) != LabeledInfo(suiteId, b, infoB, n)
  {
    assert Utf8.Encode(a)[0] == a[0] as int && Utf8.Encode(b)[0] == b[0] as int;
    if LabeledInfo(suiteId, a, infoA, m) == LabeledInfo(suiteId, b, infoB, n) {
      LengthsAreSeparated(suiteId, suiteId, a, b, infoA, infoB, m, n);
      NamesAreSeparated(suiteId, a, b, infoA, infoB, m);
    }
  }

  // ---------------------------------------------------------------------------------------------
  // Nonces
  // ---------------------------------------------------------------------------------------------

  /** Exclusive or of the low n bits. */
  function XorBits(a: nat, b: nat, n: nat): nat {
    if n == 0 then 0 else 2 * XorBits(a / 2, b / 2, n - 1) + (if a % 2 == b % 2 then 0 else 1)
  }

  function Pow2(n: nat): nat {
    if n == 0 then 1 else 2 * Pow2(n - 1)
  }

  lemma {:induction false} XorBitsRange(a: nat, b: nat, n: nat)
    ensures XorBits(a, b, n) < Pow2(n)
  {
    if n > 0 {
      XorBitsRange(a / 2, b / 2, n - 1);
    }
  }

  lemma {:induction false} XorBitsUndoes(a: nat, b: nat, n: nat)
    requires b < Pow2(n)
    ensures XorBits(a, XorBits(a, b, n), n) == b
  {
    if n > 0 {
      XorBitsUndoes(a / 2, b / 2, n - 1);
      assert XorBits(a, b, n) / 2 == XorBits(a / 2, b / 2, n - 1);
    }
  }

  lemma {:induction false} XorBitsZero(a: nat, n: nat)
    requires a < Pow2(n)
    ensures XorBits(a, 0, n) == a
  {
    if n > 0 {
      XorBitsZero(a / 2, n - 1);
    }
  }

  lemma ByteSpan()
    ensures Pow2(8) == 256
  {
    assert Pow2(4) == 2 * Pow2(3) && Pow2(6) == 2 * Pow2(5);
  }

  function XorByte(a: byte, b: byte): byte {
    ByteSpan();
    XorBitsRange(a, b, 8);
    XorBits(a, b, 8)
  }

  function Xor(a: bytes, b: bytes): (r: bytes)
    requires |a| == |b|
    ensures |r| == |a|
  {
    seq(|a|, i requires 0 <= i < |a| => XorByte(a[i], b[i]))
  }

  lemma XorUndoes(a: bytes, b: bytes)
    requires |a| == |b|
    ensures Xor(a, Xor(a, b)) == b
  {
    forall i | 0 <= i < |a|
      ensures Xor(a, Xor(a, b))[i] == b[i]
    {
      ByteSpan();
      XorBitsUndoes(a[i], b[i], 8);
    }
  }

  /** base_nonce XOR I2OSP(seq, Nn), section 5.2 of RFC 9180. */
  function Nonce(baseNonce: bytes, sequence: nat): bytes {
    Xor(baseNonce, BigEndian(sequence, |baseNonce|))
  }

  lemma SafeFits(n: nat)
    requires n >= 8
    ensures MAX_SAFE < Span(n)
  {
    if n == 8 {
      Spans();
    } else {
      SafeFits(n - 1);
    }
  }

  /** No two messages under one base nonce share a nonce. */
  lemma NoncesDiffer(baseNonce: bytes, m: nat, n: nat)
    requires |baseNonce| >= 8 && m <= MAX_SAFE && n <= MAX_SAFE
    ensures Nonce(baseNonce, m) == Nonce(baseNonce, n) <==> m == n
  {
    SafeFits(|baseNonce|);
    XorUndoes(baseNonce, BigEndian(m, |baseNonce|));
    XorUndoes(baseNonce, BigEndian(n, |baseNonce|));
    BigEndianRoundTrip(m, |baseNonce|);
    BigEndianRoundTrip(n, |baseNonce|);
  }

  lemma {:induction false} LeadingZeros(v: nat, n: nat, m: nat)
    requires v < Span(n)
    ensures BigEndian(v, m + n) == seq(m, _ => 0) + BigEndian(v, n)
  {
    if n > 0 {
      LeadingZeros(v / 256, n - 1, m);
    } else if m > 0 {
      LeadingZeros(0, 0, m - 1);
      assert BigEndian(v, m) == seq(m, _ => 0);
    }
  }

  lemma ByteOfNonce(baseNonce: bytes, sequence: nat, k: nat)
    requires |baseNonce| >= 8 && sequence <= MAX_SAFE && k < |baseNonce|
    ensures Nonce(baseNonce, sequence)[k]
         == if k < |baseNonce| - 8 then baseNonce[k]
             else XorByte(baseNonce[k], BigEndian(sequence, 8)[k - (|baseNonce| - 8)])
  {
    Spans();
    LeadingZeros(sequence, 8, |baseNonce| - 8);
    ByteSpan();
    XorBitsZero(baseNonce[k], 8);
  }

  /** A sequence number that is negative or not safe: RangeError. */
  datatype BadSequence = BadSequence(sequence: int)

  /** The last eight bytes of a copy of the base nonce, changed in place. */
  method ComputeNonce(baseNonce: bytes, sequence: int) returns (r: Result<bytes, BadSequence>)
    requires |baseNonce| >= 8
    ensures r == if 0 <= sequence <= MAX_SAFE then Ok(Nonce(baseNonce, sequence)) else Err(BadSequence(sequence))
  {
    if sequence < 0 || sequence > MAX_SAFE {
      return Err(BadSequence(sequence));
    }
    var n := |baseNonce|;
    var out := new byte[n](k requires 0 <= k < n => baseNonce[k]);
    var last := BigEndian(sequence, 8);
    for i := 0 to 8
      invariant forall k :: 0 <= k < n ==>
                  out[k] == if n - 8 <= k < n - 8 + i then XorByte(baseNonce[k], last[k - (n - 8)]) else baseNonce[k]
    {
      out[n - 8 + i] := XorByte(out[n - 8 + i], last[i]);
    }
    forall k | 0 <= k < n
      ensures out[..][k] == Nonce(baseNonce, sequence)[k]
    {
      ByteOfNonce(baseNonce, sequence, k);
    }
    assert out[..] == Nonce(baseNonce, sequence);
    return Ok(out[..]);
  }
}
